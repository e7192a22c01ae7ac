/**
 * The recommendation record exchanged between server and client, and the client's own shape of it.
 * JavaScript objects whose key order is observable (rationale, projections, risk assessment and
 * the client portfolio's entries) are sequences of key/value pairs; the server's portfolio object
 * is only ever read key by key, so it is a map.
 */
module Schema {
  import opened Wrappers

  /** The six asset classes, in the order the client lists them. */
  const AssetTypes: seq<string> := ["stocks", "bonds", "etfs", "crypto", "reits", "commodities"]

  datatype Projection = Projection(conservative: real, expected: real, optimistic: real)

  /** A recommendation as the server builds it and sends it as JSON. */
  datatype Recommendation = Recommendation(
    portfolio: map<string, real>,
    rationale: seq<(string, string)>,
    riskScore: real,
    diversificationScore: real,
    projections: seq<(string, Projection)>,
    riskAssessment: seq<(string, string)>,
    isAI: Option<bool>,
    timestamp: Option<string>,
    userInput: Option<string>)

  /** The client portfolio: three numbers that are always set and three that may be `undefined`. */
  datatype Portfolio = Portfolio(
    stocks: real, bonds: real, etfs: real,
    crypto: Option<real>, reits: Option<real>, commodities: Option<real>)

  /** A recommendation as the client holds it after conversion. */
  datatype ClientRecommendation = ClientRecommendation(
    portfolio: Portfolio,
    rationale: seq<(string, string)>,
    riskScore: real,
    diversificationScore: real,
    projections: seq<(string, Projection)>,
    riskAssessment: seq<(string, string)>,
    isAI: Option<bool>,
    timestamp: Option<string>,
    userInput: Option<string>)

  /** `obj[key]` on an object given by its entries; a JavaScript object has no key twice. */
  function Lookup<V>(entries: seq<(string, V)>, key: string): (r: Option<V>)
    ensures r.None? <==> forall i :: 0 <= i < |entries| ==> entries[i].0 != key
    ensures r.Some? ==> exists i :: 0 <= i < |entries| && entries[i] == (key, r.value)
  {
    if entries == [] then None
    else if entries[0].0 == key then Some(entries[0].1)
    else
      var r := Lookup(entries[1..], key);
      assert forall i :: 1 <= i < |entries| ==> entries[i] == entries[1..][i - 1];
      r
  }

  /** `obj[key] || 0` for a numeric object: a missing or `undefined` value reads as 0. */
  function ValueOrZero(entries: seq<(string, real)>, key: string): real {
    Lookup(entries, key).GetOr(0.0)
  }

  predicate DistinctKeys<V>(entries: seq<(string, V)>) {
    forall i, j :: 0 <= i < j < |entries| ==> entries[i].0 != entries[j].0
  }

  function OptionalEntry(key: string, value: Option<real>): seq<(string, real)> {
    if value.Some? then [(key, value.value)] else []
  }

  /**
   * `Object.entries(portfolio)`, leaving out the optional classes whose value is `undefined`.
   * Every display derivation either keeps only entries above 0 or reads values with `|| 0`;
   * both treat an `undefined` value as an absent key, so nothing observable is lost.
   */
  function Entries(p: Portfolio): (e: seq<(string, real)>)
    ensures 3 <= |e| <= 6 && e[..3] == [("stocks", p.stocks), ("bonds", p.bonds), ("etfs", p.etfs)]
    ensures DistinctKeys(e)
    ensures forall i :: 0 <= i < |e| ==> e[i].0 in AssetTypes
  {
    [("stocks", p.stocks), ("bonds", p.bonds), ("etfs", p.etfs)]
      + OptionalEntry("crypto", p.crypto) + OptionalEntry("reits", p.reits)
      + OptionalEntry("commodities", p.commodities)
  }

  /** In an object with distinct keys, looking a key up finds the value stored beside it. */
  lemma {:induction false} LookupDistinct<V>(entries: seq<(string, V)>, i: nat)
    requires DistinctKeys(entries) && i < |entries|
    ensures Lookup(entries, entries[i].0) == Some(entries[i].1)
  {
    if i > 0 {
      assert DistinctKeys(entries[1..]);
      assert entries[1..][i - 1] == entries[i];
      LookupDistinct(entries[1..], i - 1);
    }
  }

  /** The three required classes are always listed, with their values. */
  lemma EntriesLookupRequired(p: Portfolio)
    ensures Lookup(Entries(p), "stocks") == Some(p.stocks)
    ensures Lookup(Entries(p), "bonds") == Some(p.bonds)
    ensures Lookup(Entries(p), "etfs") == Some(p.etfs)
  {
    var e := Entries(p);
    LookupDistinct(e, 0);
    LookupDistinct(e, 1);
    LookupDistinct(e, 2);
  }

  /** Each optional class is listed exactly when the portfolio holds it. */
  lemma EntriesLookupOptional(p: Portfolio)
    ensures Lookup(Entries(p), "crypto") == p.crypto
    ensures Lookup(Entries(p), "reits") == p.reits
    ensures Lookup(Entries(p), "commodities") == p.commodities
  {
    var e := Entries(p);
    var a := e[..3];
    var c := OptionalEntry("crypto", p.crypto);
    var r := OptionalEntry("reits", p.reits);
    var m := OptionalEntry("commodities", p.commodities);
    assert e == a + c + r + m;
    OptionalLookup(e, a, c, r + m, "crypto", p.crypto);
    OptionalLookup(e, a + c, r, m, "reits", p.reits);
    OptionalLookup(e, a + c + r, m, [], "commodities", p.commodities);
  }

  /** No key outside the six asset classes is listed. */
  lemma EntriesLookupUnknown(p: Portfolio, k: string)
    requires k !in AssetTypes
    ensures Lookup(Entries(p), k) == None
  {
  }

  lemma OptionalLookup(e: seq<(string, real)>, before: seq<(string, real)>, o: seq<(string, real)>,
                       after: seq<(string, real)>, key: string, v: Option<real>)
    requires e == before + o + after && DistinctKeys(e)
    requires o == OptionalEntry(key, v)
    requires forall i :: 0 <= i < |before| ==> before[i].0 != key
    requires forall i :: 0 <= i < |after| ==> after[i].0 != key
    ensures Lookup(e, key) == v
  {
    if v.Some? {
      assert e[|before|] == (key, v.value);
      LookupDistinct(e, |before|);
    } else {
      assert e == before + after;
    }
  }
}
