/**
 * Composing the message of a carrier fault from the fault's detail tree.
 * The tree is modelled as elements with a local name, a text and children;
 * a path is walked one child name at a time, taking the first child of that
 * name, and an element whose text is empty reads as no text (`None`).
 */
module Fault {
  import opened Wrappers
  import opened Domain

  datatype Element = Element(name: string, text: string, children: seq<Element>)

  const CODE_PATH: seq<string> := ["detail", "Errors", "ErrorDetail", "PrimaryErrorCode", "Code"]
  const DESCRIPTION_PATH: seq<string> := ["detail", "Errors", "ErrorDetail", "PrimaryErrorCode", "Description"]

  /** The first child with the given name, if any. */
  function GetChild(children: seq<Element>, name: string): (r: Option<Element>)
    ensures r.None? <==> forall i :: 0 <= i < |children| ==> children[i].name != name
    ensures r.Some? ==> r.value in children && r.value.name == name
    ensures r.Some? ==> exists i :: 0 <= i < |children| && children[i] == r.value
                                    && forall j :: 0 <= j < i ==> children[j].name != name
  {
    if children == [] then None
    else if children[0].name == name then Some(children[0])
    else
      var rest := GetChild(children[1..], name);
      assert rest.Some? ==> exists i :: 1 <= i < |children| && children[i] == rest.value
                                        && forall j :: 0 <= j < i ==> children[j].name != name by {
        if rest.Some? {
          var k :| 0 <= k < |children[1..]| && children[1..][k] == rest.value
                   && forall j :: 0 <= j < k ==> children[1..][j].name != name;
          assert children[k + 1] == rest.value;
          assert forall j :: 0 <= j < k + 1 ==> children[j].name != name by {
            forall j | 0 <= j < k + 1 ensures children[j].name != name {
              if j > 0 { assert children[j] == children[1..][j - 1]; }
            }
          }
        }
      }
      rest
  }

  /** The node reached by following `path` down from `node`; an empty path reaches nothing. */
  function ChildAtPath(node: Element, path: seq<string>): (r: Option<Element>)
    ensures path == [] ==> r.None?
    ensures r.Some? ==> r.value.name == path[|path| - 1]
    decreases |path|
  {
    if path == [] then None
    else match GetChild(node.children, path[0])
      case None => None
      case Some(child) => if |path| == 1 then Some(child) else ChildAtPath(child, path[1..])
  }

  /** Walking `p + [n]` is walking `p` and then taking the first child named `n`. */
  lemma {:induction false} ChildAtPathStep(node: Element, p: seq<string>, n: string)
    ensures ChildAtPath(node, p + [n]) ==
      if p == [] then GetChild(node.children, n)
      else match ChildAtPath(node, p)
        case None => None
        case Some(c) => GetChild(c.children, n)
    decreases |p|
  {
    if p != [] {
      assert (p + [n])[0] == p[0];
      assert (p + [n])[1..] == p[1..] + [n];
      match GetChild(node.children, p[0])
      case None =>
      case Some(child) =>
        if |p| > 1 {
          ChildAtPathStep(child, p[1..], n);
        }
    }
  }

  /** A node reached by `ChildAtPath` is reached by a chain of first-named children. */
  lemma ChildAtPathFound(node: Element, path: seq<string>)
    requires path != []
    ensures ChildAtPath(node, path).Some? <==>
      var first := GetChild(node.children, path[0]);
      first.Some? && (|path| == 1 || ChildAtPath(first.value, path[1..]).Some?)
  {
  }

  /** `getText()`: the text, or `None` when there is none. */
  function GetText(e: Element): (t: Option<string>)
    ensures t.None? <==> e.text == ""
    ensures t.Some? ==> t.value == e.text
  {
    if e.text == "" then None else Some(e.text)
  }

  /** `'%s' % value`: a missing text formats as "None". */
  function Format(t: Option<string>): (s: string)
    ensures t.Some? ==> s == t.value
    ensures t.None? ==> s == "None"
  {
    t.GetOr("None")
  }

  const MESSAGE_PREFIX: string := "UPS Error "

  /**
   * `UPSError.__init__`: reads the primary error code, then its description,
   * and composes "UPS Error <code>: <description>". When either node is
   * missing no message is made: the result is `MalformedFault` with the path
   * that was not found (the code path is read first).
   */
  function TranslateFault(document: Element): (e: Failure)
    ensures e.UPSError? || e.MalformedFault?
    ensures e.UPSError? <==> ChildAtPath(document, CODE_PATH).Some? && ChildAtPath(document, DESCRIPTION_PATH).Some?
    ensures e.UPSError? ==>
      e.message == MESSAGE_PREFIX + Format(GetText(ChildAtPath(document, CODE_PATH).value)) + ": "
                   + Format(GetText(ChildAtPath(document, DESCRIPTION_PATH).value))
    ensures e.MalformedFault? ==>
      e.missingPath == if ChildAtPath(document, CODE_PATH).None? then CODE_PATH else DESCRIPTION_PATH
  {
    match ChildAtPath(document, CODE_PATH)
    case None => MalformedFault(CODE_PATH)
    case Some(code) =>
      match ChildAtPath(document, DESCRIPTION_PATH)
      case None => MalformedFault(DESCRIPTION_PATH)
      case Some(description) =>
        UPSError(MESSAGE_PREFIX + Format(GetText(code)) + ": " + Format(GetText(description)))
  }

  /** The fault tree a carrier sends for an error with this code and description. */
  function CarrierFault(code: string, description: string): Element
  {
    var primary := Element("PrimaryErrorCode", "", [Element("Code", code, []), Element("Description", description, [])]);
    var detail := Element("detail", "", [Element("Errors", "", [Element("ErrorDetail", "", [primary])])]);
    Element("Fault", "", [detail])
  }

  lemma CarrierFaultPaths(code: string, description: string)
    ensures ChildAtPath(CarrierFault(code, description), CODE_PATH) == Some(Element("Code", code, []))
    ensures ChildAtPath(CarrierFault(code, description), DESCRIPTION_PATH) == Some(Element("Description", description, []))
  {
    var root := CarrierFault(code, description);
    var detail := root.children[0];
    var errors := detail.children[0];
    var errorDetail := errors.children[0];
    var primary := errorDetail.children[0];
    assert GetChild(root.children, "detail") == Some(detail);
    assert GetChild(detail.children, "Errors") == Some(errors);
    assert GetChild(errors.children, "ErrorDetail") == Some(errorDetail);
    assert GetChild(errorDetail.children, "PrimaryErrorCode") == Some(primary);
    assert GetChild(primary.children, "Code") == Some(primary.children[0]);
    assert GetChild(primary.children, "Description") == Some(primary.children[1]);
    assert CODE_PATH[1..][1..][1..][1..] == ["Code"];
    assert DESCRIPTION_PATH[1..][1..][1..][1..] == ["Description"];
  }

  /** A well-formed fault gives exactly "UPS Error <code>: <description>". */
  lemma CarrierFaultMessage(code: string, description: string)
    requires code != "" && description != ""
    ensures TranslateFault(CarrierFault(code, description)) == UPSError("UPS Error " + code + ": " + description)
  {
    CarrierFaultPaths(code, description);
  }

  /** An error node without text is reported with the word "None" in its place. */
  lemma EmptyCodeReadsAsNone(description: string)
    requires description != ""
    ensures TranslateFault(CarrierFault("", description)) == UPSError("UPS Error None: " + description)
  {
    CarrierFaultPaths("", description);
  }

  /** A fault without a `detail` node never becomes a message. */
  lemma MissingDetailIsMalformed(document: Element)
    requires forall i :: 0 <= i < |document.children| ==> document.children[i].name != "detail"
    ensures TranslateFault(document) == MalformedFault(CODE_PATH)
  {
  }

  /**
   * Reads the code and description back from a message: the text after the
   * prefix up to the first ':', and what follows the ": " after it.
   */
  function SplitMessage(message: string): (r: Option<(string, string)>)
    ensures r.Some? ==> message == MESSAGE_PREFIX + r.value.0 + ": " + r.value.1
    ensures r.Some? ==> forall i :: 0 <= i < |r.value.0| ==> r.value.0[i] != ':'
  {
    if |message| < |MESSAGE_PREFIX| || message[..|MESSAGE_PREFIX|] != MESSAGE_PREFIX then None
    else
      var rest := message[|MESSAGE_PREFIX|..];
      var k := ColonIndex(rest);
      if k + 1 < |rest| && rest[k + 1] == ' ' then
        assert rest == rest[..k] + ": " + rest[k + 2..];
        assert message == MESSAGE_PREFIX + rest;
        Some((rest[..k], rest[k + 2..]))
      else None
  }

  /** The index of the first ':' in `s`, or `|s|` when there is none. */
  function ColonIndex(s: string): (k: nat)
    ensures k <= |s|
    ensures forall i :: 0 <= i < k ==> s[i] != ':'
    ensures k < |s| ==> s[k] == ':'
  {
    if s == [] then 0 else if s[0] == ':' then 0 else 1 + ColonIndex(s[1..])
  }

  /** A code without ':' is recovered from the message together with the description. */
  lemma MessageRoundTrip(code: string, description: string)
    requires forall i :: 0 <= i < |code| ==> code[i] != ':'
    ensures SplitMessage(MESSAGE_PREFIX + code + ": " + description) == Some((code, description))
  {
    var message := MESSAGE_PREFIX + code + ": " + description;
    assert message[..|MESSAGE_PREFIX|] == MESSAGE_PREFIX;
    var rest := message[|MESSAGE_PREFIX|..];
    assert rest == code + ": " + description;
    var k := ColonIndex(rest);
    assert rest[|code|] == ':';
    assert k == |code|;
    assert rest[..k] == code;
    assert rest[k + 2..] == description;
  }
}
