/**
 VLOG sites. Every call site of VLOG has a level of its own. A site is added to a global list while
 the list of module levels may be replaced; the adder takes the list of module levels it used for
 the site and adds the site only if that list is still the current one.
 */
module VlogSites {
  import opened Wildcards

  datatype Option<T> = None | Some(value: T)

  /** VModuleList: levels of names, and levels of patterns with the pattern to be tried first in front. */
  datatype Modules = Modules(exact: map<string, int>, wild: seq<(string, int)>)

  /** The names of a site: its module, and its full module unless that is the same. */
  datatype Names = Names(mod: string, full: string)

  // ---- find_verbose_level ----

  function FindWild(wild: seq<(string, int)>, names: Names, i: nat): Option<int>
    requires i <= |wild|
    decreases |wild| - i
  {
    if i == |wild| then None
    else if Match(wild[i].0, 0, names.mod, 0)
      || (names.full != "" && Match(wild[i].0, 0, names.full, 0)) then Some(wild[i].1)
    else FindWild(wild, names, i + 1)
  }

  function Find(list: Modules, names: Names): Option<int> {
    if names.mod in list.exact then Some(list.exact[names.mod])
    else if names.full != "" && names.full in list.exact then Some(list.exact[names.full])
    else FindWild(list.wild, names, 0)
  }

  predicate Matches(pattern: string, names: Names) {
    Match(pattern, 0, names.mod, 0) || (names.full != "" && Match(pattern, 0, names.full, 0))
  }

  /** The first pattern that matches decides, if no name does. */
  lemma {:induction false} FindWildFirst(wild: seq<(string, int)>, names: Names, i: nat)
    requires i <= |wild|
    ensures match FindWild(wild, names, i) {
      case None => forall k :: i <= k < |wild| ==> !Matches(wild[k].0, names)
      case Some(v) => (exists k ::
        && i <= k < |wild| && Matches(wild[k].0, names) && v == wild[k].1
        && (forall l :: i <= l < k ==> !Matches(wild[l].0, names)))
    }
    decreases |wild| - i
  {
    if i < |wild| && !Matches(wild[i].0, names) {
      FindWildFirst(wild, names, i + 1);
    }
  }

  /** The exact names of the list do not decide. */
  predicate Unnamed(list: Modules, names: Names) {
    names.mod !in list.exact && (names.full == "" || names.full !in list.exact)
  }

  /** The `k`-th pattern decides: it matches, and none before it does. */
  predicate Decides(wild: seq<(string, int)>, names: Names, k: nat) {
    k < |wild| && Matches(wild[k].0, names) && forall l :: 0 <= l < k ==> !Matches(wild[l].0, names)
  }

  /** The module decides before the full module, and both before the patterns, of which the first that matches does. */
  lemma FindIs(list: Modules, names: Names)
    ensures names.mod in list.exact ==> Find(list, names) == Some(list.exact[names.mod])
    ensures names.mod !in list.exact && names.full != "" && names.full in list.exact ==>
      Find(list, names) == Some(list.exact[names.full])
    ensures Unnamed(list, names) ==>
      forall k: nat :: Decides(list.wild, names, k) ==> Find(list, names) == Some(list.wild[k].1)
    ensures Unnamed(list, names) ==>
      (Find(list, names) == None <==> forall k :: 0 <= k < |list.wild| ==> !Matches(list.wild[k].0, names))
  {
    FindWildFirst(list.wild, names, 0);
  }

  method FindVerboseLevel(list: Modules, names: Names) returns (v: Option<int>)
    requires CString(names.mod) && CString(names.full) && forall k :: 0 <= k < |list.wild| ==> CString(list.wild[k].0)
    ensures names.mod in list.exact ==> v == Some(list.exact[names.mod])
    ensures names.mod !in list.exact && names.full != "" && names.full in list.exact ==>
      v == Some(list.exact[names.full])
    ensures Unnamed(list, names) ==> forall k: nat :: Decides(list.wild, names, k) ==> v == Some(list.wild[k].1)
    ensures Unnamed(list, names) ==>
      (v == None <==> forall k :: 0 <= k < |list.wild| ==> !Matches(list.wild[k].0, names))
    ensures v == Find(list, names)
  {
    FindIs(list, names);
    if |list.exact| > 0 {
      if names.mod in list.exact {
        return Some(list.exact[names.mod]);
      }
      if names.full != "" {
        if names.full in list.exact {
          return Some(list.exact[names.full]);
        }
      }
    }
    for i := 0 to |list.wild|
      invariant FindWild(list.wild, names, i) == FindWild(list.wild, names, 0)
    {
      var hit := Wildcmp(list.wild[i].0, names.mod);
      if hit {
        return Some(list.wild[i].1);
      }
      if names.full != "" {
        hit := Wildcmp(list.wild[i].0, names.full);
        if hit {
          return Some(list.wild[i].1);
        }
      }
    }
    return None;
  }

  // ---- Threads ----

  type Tid = nat
  type ListId = nat
  type SiteId = nat

  /** Where a thread is in add_vlog_site or on_reset_vmodule. */
  datatype Pc =
    | Idle
    | AddRead(site: SiteId)                                       // about to read vmodule_list and FLAGS_v
    | AddDefault(site: SiteId, list: Option<ListId>, v: int)      // about to give the site the default level
    | AddFind(site: SiteId, list: Option<ListId>, v: int)         // about to look the level up
    | AddLocked(site: SiteId, list: Option<ListId>, v: int)       // vlog_site_list_add
    | ResetLocked(id: ListId)                                     // holds reset_vmodule_and_v_mutex
    | ResetDefault(id: ListId, rest: seq<SiteId>)                 // walks the sites
    | ResetFind(id: ListId, rest: seq<SiteId>)

  /** Whether a site is in the list already or belongs to the thread that adds it. */
  datatype Place = Private(t: Tid) | Listed

  datatype State = State(
    lists: map<ListId, Modules>,      // all module lists there ever were
    current: Option<ListId>,          // vmodule_list
    verbose: int,                     // FLAGS_v
    names: map<SiteId, Names>,
    level: map<SiteId, int>,
    sites: seq<SiteId>,               // vlog_site_list
    resetting: Option<Tid>,           // who holds reset_vmodule_and_v_mutex
    place: map<SiteId, Place>,        // history: who owns a site
    pcs: map<Tid, Pc>)

  /** The level a module list gives to a site. */
  function LevelIn(s: State, list: Option<ListId>, x: SiteId): int {
    if list.Some? && list.value in s.lists && x in s.names then
      match Find(s.lists[list.value], s.names[x])
      case Some(v) => v
      case None => s.verbose
    else s.verbose
  }

  function Goto(s: State, t: Tid, pc: Pc): State {
    s.(pcs := s.pcs[t := pc])
  }

  function SetLevel(s: State, x: SiteId, v: int): State {
    s.(level := s.level[x := v])
  }

  /** A thread starts to add a new site, or to reset with a new module list. */
  predicate StartAdd(s: State, t: Tid, x: SiteId, names: Names, s': State) {
    && t in s.pcs && s.pcs[t] == Idle && x !in s.place
    && s' == Goto(s.(names := s.names[x := names], level := s.level[x := 0], place := s.place[x := Private(t)]), t,
      AddRead(x))
  }

  predicate StartReset(s: State, t: Tid, id: ListId, list: Modules, s': State) {
    && t in s.pcs && s.pcs[t] == Idle && id !in s.lists && s.resetting == None
    && s' == Goto(s.(lists := s.lists[id := list], resetting := Some(t)), t, ResetLocked(id))
  }

  /** The next step of a thread that is under way. */
  function Step(s: State, t: Tid): State
    requires t in s.pcs && s.pcs[t] != Idle
  {
    match s.pcs[t]
    case AddRead(x) => Goto(s, t, AddDefault(x, s.current, s.verbose))
    case AddDefault(x, list, v) => Goto(SetLevel(s, x, v), t, AddFind(x, list, v))
    case AddFind(x, list, v) =>
      var found := if list.Some? && list.value in s.lists && x in s.names then Find(s.lists[list.value], s.names[x])
        else None;
      Goto(if found.Some? then SetLevel(s, x, found.value) else s, t, AddLocked(x, list, v))
    case AddLocked(x, list, v) =>
      if s.current != list then Goto(s, t, AddDefault(x, s.current, v))
      else if v != s.verbose then Goto(s, t, AddDefault(x, list, s.verbose))
      else Goto(s.(sites := [x] + s.sites, place := s.place[x := Listed]), t, Idle)
    case ResetLocked(id) => Goto(s.(current := Some(id)), t, ResetDefault(id, s.sites))
    case ResetDefault(id, rest) =>
      if rest == [] then Goto(s.(resetting := None), t, Idle)
      else Goto(SetLevel(s, rest[0], s.verbose), t, ResetFind(id, rest))
    case ResetFind(id, rest) =>
      if rest == [] then s
      else
        var found := if id in s.lists && rest[0] in s.names then Find(s.lists[id], s.names[rest[0]]) else None;
        Goto(if found.Some? then SetLevel(s, rest[0], found.value) else s, t, ResetDefault(id, rest[1..]))
  }

  ghost predicate Next(s: State, s': State) {
    || (exists t: Tid, x: SiteId, names: Names :: StartAdd(s, t, x, names, s'))
    || (exists t: Tid, id: ListId, list: Modules :: StartReset(s, t, id, list, s'))
    || (exists t: Tid :: t in s.pcs && s.pcs[t] != Idle && s' == Step(s, t))
  }

  predicate Init(s: State) {
    && s.lists == map[] && s.current == None && s.sites == [] && s.resetting == None && s.place == map[]
    && s.names == map[] && s.level == map[] && forall t: Tid :: t in s.pcs ==> s.pcs[t] == Idle
  }

  // ---- The invariant ----

  /** What is true of a thread that is under way. */
  predicate PcOk(s: State, t: Tid, pc: Pc) {
    match pc
    case Idle => true
    case AddRead(x) => Mine(s, t, x)
    case AddDefault(x, list, v) => Mine(s, t, x) && Known(s, list) && v == s.verbose
    case AddFind(x, list, v) => Mine(s, t, x) && Known(s, list) && v == s.verbose && s.level[x] == s.verbose
    case AddLocked(x, list, v) => Mine(s, t, x) && Known(s, list) && v == s.verbose && s.level[x] == LevelIn(s, list, x)
    case ResetLocked(id) => s.resetting == Some(t) && id in s.lists
    case ResetDefault(id, rest) => s.resetting == Some(t) && s.current == Some(id) && id in s.lists
      && AllListed(s, rest)
    case ResetFind(id, rest) =>
      && s.resetting == Some(t) && s.current == Some(id) && id in s.lists && AllListed(s, rest)
      && rest != [] && s.level[rest[0]] == s.verbose
  }

  predicate Mine(s: State, t: Tid, x: SiteId) {
    x in s.place && s.place[x] == Private(t) && x in s.names && x in s.level
  }

  predicate Known(s: State, list: Option<ListId>) {
    list.Some? ==> list.value in s.lists
  }

  predicate AllListed(s: State, rest: seq<SiteId>) {
    forall i :: 0 <= i < |rest| ==> ListedAt(s, rest[i])
  }

  predicate ListedAt(s: State, x: SiteId) {
    x in s.place && s.place[x] == Listed && x in s.names && x in s.level
  }

  /** The sites a reset has still to walk over. */
  function Pending(s: State): seq<SiteId> {
    if s.resetting.Some? && s.resetting.value in s.pcs then
      match s.pcs[s.resetting.value]
      case ResetDefault(_, rest) => rest
      case ResetFind(_, rest) => rest
      case _ => []
    else []
  }

  predicate SiteOk(s: State, x: SiteId) {
    ListedAt(s, x) && (x in Pending(s) || s.level[x] == LevelIn(s, s.current, x))
  }

  predicate Inv(s: State) {
    && Known(s, s.current)
    && (forall t: Tid :: t in s.pcs ==> PcOk(s, t, s.pcs[t]))
    && (forall i :: 0 <= i < |s.sites| ==> SiteOk(s, s.sites[i]))
  }

  lemma InitInv(s: State)
    requires Init(s)
    ensures Inv(s)
  {
  }

  lemma SitesListed(s: State)
    requires Inv(s)
    ensures AllListed(s, s.sites)
  {
    assert forall i :: 0 <= i < |s.sites| ==> SiteOk(s, s.sites[i]);
  }

  /** A step of one thread is in order for every other thread. */
  lemma StepThread(s: State, t: Tid, u: Tid)
    requires Inv(s) && t in s.pcs && s.pcs[t] != Idle && u in s.pcs
    ensures u in Step(s, t).pcs && PcOk(Step(s, t), u, Step(s, t).pcs[u])
  {
    hide Find;
    assert PcOk(s, t, s.pcs[t]) && PcOk(s, u, s.pcs[u]);
    SitesListed(s);
    hide SiteOk;
  }

  predicate Adding(pc: Pc) {
    pc.AddRead? || pc.AddDefault? || pc.AddFind? || pc.AddLocked?
  }

  /** A thread that adds a site touches no site in the list. */
  lemma OldSite(s: State, t: Tid, x: SiteId)
    requires t in s.pcs && Adding(s.pcs[t]) && PcOk(s, t, s.pcs[t]) && SiteOk(s, x)
    ensures SiteOk(Step(s, t), x)
  {
    hide Find;
  }

  lemma NewSite(s: State, t: Tid)
    requires t in s.pcs && Adding(s.pcs[t]) && PcOk(s, t, s.pcs[t]) && Step(s, t).sites != s.sites
    ensures Step(s, t).sites[1..] == s.sites && SiteOk(Step(s, t), Step(s, t).sites[0])
  {
    hide Find;
  }

  lemma AddSite(s: State, t: Tid, i: nat)
    requires Inv(s) && t in s.pcs && Adding(s.pcs[t]) && i < |Step(s, t).sites|
    ensures SiteOk(Step(s, t), Step(s, t).sites[i])
  {
    hide SiteOk, Step, PcOk;
    if Step(s, t).sites == s.sites {
      OldSite(s, t, s.sites[i]);
    } else {
      NewSite(s, t);
      if i > 0 {
        assert Step(s, t).sites[i] == s.sites[i - 1];
        OldSite(s, t, s.sites[i - 1]);
      }
    }
  }

  lemma ResetSite(s: State, t: Tid, i: nat)
    requires Inv(s) && t in s.pcs && s.pcs[t] != Idle && !Adding(s.pcs[t]) && i < |Step(s, t).sites|
    ensures SiteOk(Step(s, t), Step(s, t).sites[i])
  {
    hide Find;
    assert PcOk(s, t, s.pcs[t]) && SiteOk(s, s.sites[i]);
    if s.pcs[t].ResetLocked? {
      assert Pending(Step(s, t)) == s.sites && s.sites[i] in s.sites;
    } else if s.pcs[t].ResetFind? {
      var rest := s.pcs[t].rest;
      assert rest == [rest[0]] + rest[1..];
    }
  }

  /** After a step every site in the list has the level of the current module list or is waiting for it. */
  lemma StepSite(s: State, t: Tid, i: nat)
    requires Inv(s) && t in s.pcs && s.pcs[t] != Idle && i < |Step(s, t).sites|
    ensures SiteOk(Step(s, t), Step(s, t).sites[i])
  {
    hide Inv, SiteOk, Step;
    if Adding(s.pcs[t]) {
      AddSite(s, t, i);
    } else {
      ResetSite(s, t, i);
    }
  }

  lemma StepInv(s: State, t: Tid)
    requires Inv(s) && t in s.pcs && s.pcs[t] != Idle
    ensures Inv(Step(s, t))
  {
    hide Find, LevelIn;
    var s' := Step(s, t);
    assert PcOk(s, t, s.pcs[t]);
    forall u: Tid | u in s'.pcs
      ensures PcOk(s', u, s'.pcs[u])
    {
      StepThread(s, t, u);
    }
    forall i | 0 <= i < |s'.sites|
      ensures SiteOk(s', s'.sites[i])
    {
      StepSite(s, t, i);
    }
  }

  lemma StartAddInv(s: State, t: Tid, x: SiteId, names: Names, s': State)
    requires Inv(s) && StartAdd(s, t, x, names, s')
    ensures Inv(s')
  {
    hide Find;
  }

  lemma StartResetInv(s: State, t: Tid, id: ListId, list: Modules, s': State)
    requires Inv(s) && StartReset(s, t, id, list, s')
    ensures Inv(s')
  {
    hide Find;
  }

  lemma NextInv(s: State, s': State)
    requires Inv(s) && Next(s, s')
    ensures Inv(s')
  {
    hide Inv, Find, StartAdd, StartReset, Step;
    if t: Tid, x: SiteId, names: Names :| StartAdd(s, t, x, names, s') {
      StartAddInv(s, t, x, names, s');
    } else if t: Tid, id: ListId, list: Modules :| StartReset(s, t, id, list, s') {
      StartResetInv(s, t, id, list, s');
    } else {
      var t: Tid :| t in s.pcs && s.pcs[t] != Idle && s' == Step(s, t);
      StepInv(s, t);
    }
  }

  ghost predicate NextAt(ss: seq<State>, k: nat) {
    k + 1 < |ss| ==> Next(ss[k], ss[k + 1])
  }

  ghost predicate IsRun(ss: seq<State>) {
    |ss| > 0 && Init(ss[0]) && forall k: nat :: NextAt(ss, k)
  }

  lemma {:induction false} RunInv(ss: seq<State>, k: nat)
    requires IsRun(ss) && k < |ss|
    ensures Inv(ss[k])
  {
    hide Inv, Next, Init;
    if k == 0 {
      InitInv(ss[0]);
    } else {
      RunInv(ss, k - 1);
      assert NextAt(ss, k - 1);
      NextInv(ss[k - 1], ss[k]);
    }
  }

  /** Whenever no reset is under way, every site in the list carries the level the current module list
      gives it, no matter how adding and resetting interleaved before. */
  lemma ResetFinished(ss: seq<State>, k: nat, i: nat)
    requires IsRun(ss) && k < |ss| && ss[k].resetting == None && i < |ss[k].sites|
    ensures var s := ss[k]; var x := s.sites[i];
      x in s.names && x in s.level && s.level[x] == LevelIn(s, s.current, x)
  {
    RunInv(ss, k);
    assert SiteOk(ss[k], ss[k].sites[i]);
  }

  /** A site is added by its own thread and once only. */
  lemma AddedOnce(ss: seq<State>, k: nat, t: Tid)
    requires IsRun(ss) && k < |ss| && t in ss[k].pcs && ss[k].pcs[t].AddLocked?
    ensures ss[k].pcs[t].site !in ss[k].sites
  {
    RunInv(ss, k);
    var s := ss[k];
    assert PcOk(s, t, s.pcs[t]);
    forall i | 0 <= i < |s.sites|
      ensures s.sites[i] != s.pcs[t].site
    {
      assert SiteOk(s, s.sites[i]);
    }
  }

  // ---- No site is lost ----

  /** A site is in the list, or its thread is still adding it. */
  predicate Somewhere(s: State, x: SiteId)
    requires x in s.place
  {
    match s.place[x]
    case Listed => x in s.sites
    case Private(t) => t in s.pcs && Adding(s.pcs[t]) && s.pcs[t].site == x
  }

  predicate NoneLost(s: State) {
    && (forall x :: x in s.place ==> Somewhere(s, x))
    && (forall i, j :: 0 <= i < j < |s.sites| ==> s.sites[i] != s.sites[j])
  }

  lemma StepSomewhere(s: State, t: Tid, x: SiteId)
    requires t in s.pcs && s.pcs[t] != Idle && PcOk(s, t, s.pcs[t]) && x in s.place && Somewhere(s, x)
    ensures x in Step(s, t).place && Somewhere(Step(s, t), x)
  {
    hide Find, LevelIn;
  }

  lemma StepPlaces(s: State, t: Tid)
    requires t in s.pcs && s.pcs[t] != Idle
    ensures Step(s, t).place.Keys <= s.place.Keys + if Adding(s.pcs[t]) then {s.pcs[t].site} else {}
    ensures Step(s, t).sites == s.sites || (Adding(s.pcs[t]) && Step(s, t).sites == [s.pcs[t].site] + s.sites)
  {
    hide Find;
  }

  lemma StepNoneLost(s: State, t: Tid)
    requires Inv(s) && NoneLost(s) && t in s.pcs && s.pcs[t] != Idle
    ensures NoneLost(Step(s, t))
  {
    var s' := Step(s, t);
    assert PcOk(s, t, s.pcs[t]);
    StepPlaces(s, t);
    SitesListed(s);
    hide Step, SiteOk;
    forall x | x in s'.place
      ensures Somewhere(s', x)
    {
      assert x in s.place;
      StepSomewhere(s, t, x);
    }
    if s'.sites != s.sites {
      forall i | 0 <= i < |s.sites|
        ensures s.sites[i] != s.pcs[t].site
      {
        assert ListedAt(s, s.sites[i]);
      }
    }
  }

  lemma StartNoneLost(s: State, t: Tid, s': State)
    requires NoneLost(s) && t in s.pcs && s.pcs[t] == Idle && s'.sites == s.sites
    requires (exists x: SiteId, names: Names :: StartAdd(s, t, x, names, s'))
      || (exists id: ListId, list: Modules :: StartReset(s, t, id, list, s'))
    ensures NoneLost(s')
  {
    forall x | x in s'.place
      ensures Somewhere(s', x)
    {
      assert x in s.place ==> Somewhere(s, x);
    }
  }

  /** In every reachable state every site there is is in the list, just once, unless its thread is still adding it. */
  lemma {:induction false} NoSiteLost(ss: seq<State>, k: nat)
    requires IsRun(ss) && k < |ss|
    ensures NoneLost(ss[k])
  {
    hide Inv, NoneLost, Step, Find;
    if k == 0 {
      NoSites(ss[0]);
    } else {
      NoSiteLost(ss, k - 1);
      RunInv(ss, k - 1);
      assert NextAt(ss, k - 1);
      var s, s' := ss[k - 1], ss[k];
      if t: Tid, x: SiteId, names: Names :| StartAdd(s, t, x, names, s') {
        StartNoneLost(s, t, s');
      } else if t: Tid, id: ListId, list: Modules :| StartReset(s, t, id, list, s') {
        StartNoneLost(s, t, s');
      } else {
        var t: Tid :| t in s.pcs && s.pcs[t] != Idle && s' == Step(s, t);
        StepNoneLost(s, t);
      }
    }
  }

  lemma NoSites(s: State)
    requires Init(s)
    ensures NoneLost(s)
  {
  }
}
