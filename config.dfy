/**
 * The plugin configuration: the five size thresholds of a repository, the
 * per-repository items that carry them, and their validation.
 */
module Config {
  import opened Wrappers

  /** The two errors that threshold validation reports. */
  datatype ConfigError =
    | InvalidValue            // some threshold is not positive
    | WrongSizeRelationship   // the thresholds are not in non-decreasing order

  /** Every element is at most every later element. */
  predicate Sorted(t: seq<int>)
  {
    forall i, j :: 0 <= i <= j < |t| ==> t[i] <= t[j]
  }

  /** The threshold policy: the lowest change count of labels S, M, L, XL and XXL. */
  datatype Size = Size(s: int, m: int, l: int, xl: int, xxl: int)
  {
    /** The thresholds in label order. */
    function Bounds(): seq<int>
    {
      [s, m, l, xl, xxl]
    }

    predicate AllPositive()
    {
      forall i :: 0 <= i < |Bounds()| ==> Bounds()[i] > 0
    }

    /** What a configuration must satisfy to be accepted. */
    predicate Valid()
    {
      AllPositive() && Sorted(Bounds())
    }

    /** Size validation: positivity is checked first, then the order of adjacent thresholds. */
    function Validate(): (r: Option<ConfigError>)
      ensures r == None <==> Valid()
      ensures r == Some(InvalidValue) <==> !AllPositive()
      ensures r == Some(WrongSizeRelationship) <==> AllPositive() && !Sorted(Bounds())
    {
      assert Bounds()[0] == s && Bounds()[1] == m && Bounds()[2] == l && Bounds()[3] == xl && Bounds()[4] == xxl;
      if s <= 0 || m <= 0 || l <= 0 || xl <= 0 || xxl <= 0 then
        Some(InvalidValue)
      else if !(s <= m) || !(m <= l) || !(l <= xl) || !(xl <= xxl) then
        Some(WrongSizeRelationship)
      else
        None
    }
  }

  /** A zero threshold and a descending pair are rejected; equal thresholds are accepted. */
  lemma ValidationExamples()
    ensures Size(0, 50, 200, 500, 1000).Validate() == Some(InvalidValue)
    ensures Size(50, 10, 200, 500, 1000).Validate() == Some(WrongSizeRelationship)
    ensures Size(1, 1, 1, 1, 1).Validate() == None
  {
  }

  /** The repository filter of the plugin library; its matching rules belong to that library. */
  datatype PluginForRepo = PluginForRepo(repos: seq<string>, excludedRepos: seq<string>)

  /** One configuration item: a repository filter and the thresholds that apply to it. */
  datatype BotConfig = BotConfig(plugin: PluginForRepo, sizes: Size)
  {
    /** Item validation; only the thresholds part is modelled. */
    function Validate(): (r: Option<ConfigError>)
      ensures r == None <==> sizes.Valid()
      ensures r != None ==> r == sizes.Validate()
    {
      sizes.Validate()
    }

    /** The item's default-filling step, which changes nothing. */
    function SetDefault(): (r: BotConfig)
      ensures r == this
    {
      this
    }
  }

  /** The whole plugin configuration; `null` stands for Go's nil receiver. */
  class Configuration {
    var configItems: seq<BotConfig>

    constructor (items: seq<BotConfig>)
      ensures configItems == items
    {
      configItems := items;
    }
  }

  /**
   * Validation of the whole configuration: items are checked in order and the
   * first failing item's error is returned.
   */
  method Validate(c: Configuration?) returns (err: Option<ConfigError>)
    ensures c == null ==> err == None
    ensures c != null ==>
      (err == None <==> forall i :: 0 <= i < |c.configItems| ==> c.configItems[i].Validate() == None)
    ensures c != null && err != None ==>
      exists i :: 0 <= i < |c.configItems| && c.configItems[i].Validate() == err &&
        forall j :: 0 <= j < i ==> c.configItems[j].Validate() == None
  {
    if c == null {
      return None;
    }
    var items := c.configItems;
    for i := 0 to |items|
      invariant forall j :: 0 <= j < i ==> items[j].Validate() == None
    {
      var e := items[i].Validate();
      if e != None {
        return e;
      }
    }
    return None;
  }

  /** Fills in defaults item by item; every item's step is empty, so nothing changes. */
  method SetDefault(c: Configuration?)
    modifies c
    ensures c != null ==> c.configItems == old(c.configItems)
  {
    if c == null {
      return;
    }
    for i := 0 to |c.configItems|
      invariant c.configItems == old(c.configItems)
    {
      c.configItems := c.configItems[i := c.configItems[i].SetDefault()];
    }
  }

  /**
   * The item that applies to repository `org`/`repo`. The library's matcher is
   * the parameter `find`, which answers the index of the matching item or a
   * negative number when none matches.
   */
  method ConfigFor(c: Configuration?, org: string, repo: string,
                   find: (string, string, seq<BotConfig>) -> int)
    returns (r: Option<BotConfig>)
    requires c != null ==> find(org, repo, c.configItems) < |c.configItems|
    ensures c == null ==> r == None
    ensures c != null ==>
      var k := find(org, repo, c.configItems);
      (r == None <==> k < 0) && (r != None ==> r.value == c.configItems[k])
  {
    if c == null {
      return None;
    }
    var items := c.configItems;
    var v := new BotConfig[|items|];
    for i := 0 to |items|
      invariant v[..i] == items[..i]
    {
      v[i] := items[i];
    }
    assert v[..] == items;
    var k := find(org, repo, v[..]);
    if k >= 0 {
      return Some(items[k]);
    }
    return None;
  }
}
