/** The module-level lookup tables of the client and `dict(table).get(key)` over them. */
module Tables {
  import opened Wrappers

  /** UPS service codes and their display names. */
  const SERVICES: seq<(string, string)> := [
    ("03", "UPS Ground"),
    ("11", "UPS Standard"),
    ("01", "UPS Next Day"),
    ("14", "UPS Next Day AM"),
    ("13", "UPS Next Day Air Saver"),
    ("02", "UPS 2nd Day"),
    ("59", "UPS 2nd Day AM"),
    ("12", "UPS 3-day Select"),
    ("65", "UPS Saver"),
    ("07", "UPS Worldwide Express"),
    ("08", "UPS Worldwide Expedited"),
    ("54", "UPS Worldwide Express Plus")
  ]

  /** UPS packaging codes and their display names. */
  const PACKAGES: seq<(string, string)> := [
    ("02", "Custom Packaging"),
    ("01", "UPS Letter"),
    ("03", "Tube"),
    ("04", "PAK"),
    ("21", "UPS Express Box"),
    ("2a", "Small Express Box"),
    ("2b", "Medium Express Box"),
    ("2c", "Large Express Box")
  ]

  predicate DistinctKeys(table: seq<(string, string)>)
  {
    forall i, j :: 0 <= i < j < |table| ==> table[i].0 != table[j].0
  }

  /**
   * `dict(table).get(key)`: building a dict from pairs lets later pairs
   * overwrite earlier ones, so the last pair with the key decides.
   */
  function DictGet(table: seq<(string, string)>, key: string): (r: Option<string>)
    ensures r.None? <==> forall i :: 0 <= i < |table| ==> table[i].0 != key
    ensures r.Some? ==> (key, r.value) in table
    ensures r.Some? ==> exists i :: 0 <= i < |table| && table[i] == (key, r.value)
                                    && forall j :: i < j < |table| ==> table[j].0 != key
  {
    if table == [] then None
    else if table[|table| - 1].0 == key then Some(table[|table| - 1].1)
    else
      var init := table[..|table| - 1];
      var rest := DictGet(init, key);
      assert rest.Some? ==> exists i :: 0 <= i < |table| && table[i] == (key, rest.value)
                                        && forall j :: i < j < |table| ==> table[j].0 != key by {
        if rest.Some? {
          var k :| 0 <= k < |init| && init[k] == (key, rest.value)
                   && forall j :: k < j < |init| ==> init[j].0 != key;
          assert table[k] == init[k];
          assert forall j :: k < j < |table| ==> table[j].0 != key by {
            forall j | k < j < |table| ensures table[j].0 != key {
              if j < |table| - 1 { assert table[j] == init[j]; }
            }
          }
        }
      }
      rest
  }

  /** With distinct keys the dict holds exactly the table's pairs. */
  lemma DictGetDistinct(table: seq<(string, string)>, key: string, value: string)
    requires DistinctKeys(table)
    ensures DictGet(table, key) == Some(value) <==> (key, value) in table
  {
    if (key, value) in table {
      var i :| 0 <= i < |table| && table[i] == (key, value);
      var r := DictGet(table, key);
      assert r.Some?;
      var j :| 0 <= j < |table| && table[j] == (key, r.value);
      if i < j { assert table[i].0 == table[j].0; } else if j < i { assert table[j].0 == table[i].0; }
    }
  }

  lemma ServicesHaveDistinctCodes()
    ensures DistinctKeys(SERVICES)
  {
  }

  lemma PackagesHaveDistinctCodes()
    ensures DistinctKeys(PACKAGES)
  {
  }
}
