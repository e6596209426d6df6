/**
 * The path handling at the top of `taskHandler`: strip `/api/tasks/`, reject
 * an empty remainder, recognise a `/toggle` suffix, and parse the ID.
 */
module Routing {
  import opened Wrappers
  import opened Decimal

  const ItemPrefix: string := "/api/tasks/"
  const ToggleSuffix: string := "/toggle"

  /** The paths the mux hands to `taskHandler`: those under `/api/tasks/`. */
  predicate IsItemPath(path: string) {
    |path| >= |ItemPrefix| && path[..|ItemPrefix|] == ItemPrefix
  }

  datatype Route =
    | MissingId            // nothing after the prefix
    | InvalidId            // the ID text is not an integer
    | ToggleRoute(id: int) // `{id}/toggle`
    | ItemRoute(id: int)   // `{id}`

  /** Which branch of `taskHandler` a path reaches, before the method is looked at. */
  function Classify(path: string): (r: Route)
    requires IsItemPath(path)
    ensures r.MissingId? <==> path == ItemPrefix
    ensures r.ToggleRoute? ==>
      |path| > |ItemPrefix| + |ToggleSuffix|
      && path == ItemPrefix + path[|ItemPrefix|..|path| - |ToggleSuffix|] + ToggleSuffix
      && Atoi(path[|ItemPrefix|..|path| - |ToggleSuffix|]) == Some(r.id)
    ensures r.ItemRoute? ==> Atoi(path[|ItemPrefix|..]) == Some(r.id)
  {
    var rest := path[|ItemPrefix|..];
    assert path == ItemPrefix + rest;
    if rest == "" then MissingId
    else if |rest| > |ToggleSuffix| && rest[|rest| - |ToggleSuffix|..] == ToggleSuffix then
      var idText := rest[..|rest| - |ToggleSuffix|];
      assert rest == idText + ToggleSuffix;
      assert idText == path[|ItemPrefix|..|path| - |ToggleSuffix|];
      match Atoi(idText)
      case None => InvalidId
      case Some(id) => ToggleRoute(id)
    else
      match Atoi(rest)
      case None => InvalidId
      case Some(id) => ItemRoute(id)
  }

  /** A path ends in the toggle suffix exactly when it was written as some ID text plus the suffix. */
  lemma SplitToggle(s: string)
    ensures IsItemPath(ItemPrefix + s + ToggleSuffix)
    ensures (ItemPrefix + s + ToggleSuffix)[|ItemPrefix|..] == s + ToggleSuffix
    ensures (s + ToggleSuffix)[|s + ToggleSuffix| - |ToggleSuffix|..] == ToggleSuffix
    ensures (s + ToggleSuffix)[..|s + ToggleSuffix| - |ToggleSuffix|] == s
  {
    assert (ItemPrefix + s + ToggleSuffix)[..|ItemPrefix|] == ItemPrefix;
    assert (ItemPrefix + s + ToggleSuffix)[|ItemPrefix|..] == s + ToggleSuffix;
  }

  /** `{s}/toggle` routes to toggling task `n` exactly when `s` parses as `n`; otherwise it is a 400. */
  lemma ClassifyToggleIff(s: string, n: int)
    ensures IsItemPath(ItemPrefix + s + ToggleSuffix)
    ensures Classify(ItemPrefix + s + ToggleSuffix) == ToggleRoute(n) <==> Atoi(s) == Some(n)
    ensures Atoi(s) == None ==> Classify(ItemPrefix + s + ToggleSuffix) == InvalidId
  {
    SplitToggle(s);
    var rest := s + ToggleSuffix;
    if |rest| <= |ToggleSuffix| {
      assert s == "" && rest == ToggleSuffix;
      assert !IsSign(rest[0]) && !IsDigit(rest[0]);
    }
  }

  /** `{s}` routes to task `n` exactly when `s` parses as `n`: no integer text ends in `/toggle`. */
  lemma ClassifyItemIff(s: string, n: int)
    ensures IsItemPath(ItemPrefix + s)
    ensures Classify(ItemPrefix + s) == ItemRoute(n) <==> Atoi(s) == Some(n)
  {
    var path := ItemPrefix + s;
    assert path[..|ItemPrefix|] == ItemPrefix;
    assert path[|ItemPrefix|..] == s;
    if Atoi(s).Some? && |s| > |ToggleSuffix| {
      assert s[|s| - |ToggleSuffix|..][0] == s[|s| - |ToggleSuffix|];
      assert s[|s| - |ToggleSuffix|..] != ToggleSuffix;
    }
  }

  /** The toggle path the page requests for task `id`, with the ID rendered in decimal. */
  function TogglePath(id: int): (p: string)
    ensures IsItemPath(p) && p[|ItemPrefix|..] == Itoa(id) + ToggleSuffix
  {
    SplitToggle(Itoa(id));
    ItemPrefix + Itoa(id) + ToggleSuffix
  }

  /** The item path the page requests for task `id`, with the ID rendered in decimal. */
  function IdPath(id: int): (p: string)
    ensures IsItemPath(p) && p[|ItemPrefix|..] == Itoa(id)
  {
    var p := ItemPrefix + Itoa(id);
    assert p[..|ItemPrefix|] == ItemPrefix && p[|ItemPrefix|..] == Itoa(id);
    p
  }

  lemma ClassifyTogglePath(id: int)
    ensures IsItemPath(TogglePath(id)) && Classify(TogglePath(id)) == ToggleRoute(id)
  {
    AtoiItoa(id);
    ClassifyToggleIff(Itoa(id), id);
  }

  lemma ClassifyIdPath(id: int)
    ensures IsItemPath(IdPath(id)) && Classify(IdPath(id)) == ItemRoute(id)
  {
    AtoiItoa(id);
    ClassifyItemIff(Itoa(id), id);
  }

  /** The suffix alone is not a toggle request: its ID text `/toggle` does not parse. */
  lemma ClassifyBareToggle()
    ensures IsItemPath(ItemPrefix + ToggleSuffix)
    ensures Classify(ItemPrefix + ToggleSuffix) == InvalidId
  {
    ClassifyToggleIff("", 0);
    assert ItemPrefix + "" + ToggleSuffix == ItemPrefix + ToggleSuffix;
  }
}
