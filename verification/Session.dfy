/**
 A whole reconcile with nothing else acting on the cluster, and with the numbered calls to the API
 that it makes: which step makes which call decides what the step meets. The methods of Reconciler
 do exactly this.
 */
module Session {
  import opened Refs
  import opened Extraction
  import opened Objects
  import opened Guard
  import opened Job

  /** Which of the numbered calls fail, and the text of the time when each patch is built. */
  datatype Api = Api(getFails: nat -> bool, patchFails: nat -> bool, clock: nat -> string)

  /** The numbers of the next calls. */
  datatype Calls = Calls(gets: nat, patches: nat)

  datatype JobState = JobState(store: Store, stage: Stage, calls: Calls)

  /** Some Get among `count` calls from the given number on fails. */
  ghost predicate FailsAmong(fails: nat -> bool, from: nat, count: nat) {
    exists i | from <= i < from + count :: fails(i)
  }

  /** The targets the check step finds; none if extraction fails. */
  ghost function FoundTargets(cfg: Config, v: Key, read: Object, wx: Weather): seq<Key>
    requires Possible(cfg, wx)
  {
    OrderKeys(wx.order, cfg.kinds);
    match Gather(wx.order, cfg.kinds, read.annotations, v.namespace)
    case Failure(_) => []
    case Success(targets) => targets
  }

  /** What a step meets is what its own calls meet. */
  ghost predicate Fits(cfg: Config, api: Api, v: Key, st: JobState, wx: Weather)
    requires Possible(cfg, wx)
  {
    match st.stage
    case Fetching =>
      wx.ok <==> !api.getFails(st.calls.gets)
    case Marking(read) =>
      cfg.lastObserved !in read.annotations ==>
        (wx.ok <==> !api.patchFails(st.calls.patches)) && wx.now == api.clock(st.calls.patches)
    case Checking(read) =>
      // One Get per walk; without targets no call is made.
      var targets := FoundTargets(cfg, v, read, wx);
      wx.ok <==> !FailsAmong(api.getFails, st.calls.gets, WalksFrom(GraphOf(cfg, st.store), [ID(v)], targets))
    case Clearing(_, _) =>
      wx.ok <==> !api.patchFails(st.calls.patches)
    case Triggering(targets, oks) =>
      |oks| < |targets| && targets[|oks|] in st.store ==>
        && (wx.ok <==> !api.getFails(st.calls.gets) && !api.patchFails(st.calls.patches))
        && wx.now == api.clock(st.calls.patches)
    case Done(_) =>
      true
  }

  /** The calls a step makes. A check that blocks stops early, and how early is left open. */
  ghost function Made(cfg: Config, api: Api, v: Key, st: JobState, wx: Weather): (c: Calls)
    requires Possible(cfg, wx)
  {
    var (gets, patches) := (st.calls.gets, st.calls.patches);
    match st.stage
    case Fetching =>
      Calls(gets + 1, patches)
    case Marking(read) =>
      if cfg.lastObserved in read.annotations then st.calls else Calls(gets, patches + 1)
    case Checking(read) =>
      var targets := FoundTargets(cfg, v, read, wx);
      if wx.ok && Passes(GraphOf(cfg, st.store), ID(v), targets)
      then Calls(gets + WalksFrom(GraphOf(cfg, st.store), [ID(v)], targets), patches)
      else st.calls
    case Clearing(_, _) =>
      Calls(gets, patches + 1)
    case Triggering(targets, oks) =>
      // A target that could not be fetched is not patched.
      if |oks| >= |targets| then st.calls
      else Calls(gets + 1, if !api.getFails(gets) && targets[|oks|] in st.store then patches + 1 else patches)
    case Done(_) =>
      st.calls
  }

  ghost function JobStep(cfg: Config, api: Api, v: Key, st: JobState, wx: Weather): JobState
    requires Possible(cfg, wx)
  {
    var (store, stage) := Advance(cfg, v, st.store, st.stage, wx);
    JobState(store, stage, Made(cfg, api, v, st, wx))
  }

  ghost predicate AllPossible(cfg: Config, ws: seq<Weather>) {
    forall wx | wx in ws :: Possible(cfg, wx)
  }

  ghost function RunJob(cfg: Config, api: Api, v: Key, st: JobState, ws: seq<Weather>): JobState
    requires AllPossible(cfg, ws)
  {
    if ws == [] then st
    else JobStep(cfg, api, v, RunJob(cfg, api, v, st, ws[..|ws| - 1]), ws[|ws| - 1])
  }

  /** The steps lead from `st` to `st'`, each meeting what its calls meet. */
  ghost predicate Leads(cfg: Config, api: Api, v: Key, st: JobState, ws: seq<Weather>, st': JobState) {
    && AllPossible(cfg, ws)
    && (forall n | 0 <= n < |ws| :: Fits(cfg, api, v, RunJob(cfg, api, v, st, ws[..n]), ws[n]))
    && RunJob(cfg, api, v, st, ws) == st'
  }

  lemma LeadsNone(cfg: Config, api: Api, v: Key, st: JobState)
    ensures Leads(cfg, api, v, st, [], st)
  {
  }

  lemma LeadsSnoc(cfg: Config, api: Api, v: Key, st: JobState, ws: seq<Weather>, mid: JobState, wx: Weather)
    requires Leads(cfg, api, v, st, ws, mid) && Possible(cfg, wx) && Fits(cfg, api, v, mid, wx)
    ensures Leads(cfg, api, v, st, ws + [wx], JobStep(cfg, api, v, mid, wx))
  {
    hide JobStep, Fits;
    var all := ws + [wx];
    forall n | 0 <= n < |all| ensures Fits(cfg, api, v, RunJob(cfg, api, v, st, all[..n]), all[n]) {
      assert all[..n] == ws[..n];
      assert ws[..|ws|] == ws;
    }
    assert all[..|ws|] == ws;
  }

  lemma {:induction false} LeadsAppend(cfg: Config, api: Api, v: Key, st: JobState, ws: seq<Weather>, mid: JobState,
                                       more: seq<Weather>, end: JobState)
    requires Leads(cfg, api, v, st, ws, mid) && Leads(cfg, api, v, mid, more, end)
    ensures Leads(cfg, api, v, st, ws + more, end)
  {
    hide JobStep, Fits;
    if more == [] {
      assert ws + more == ws;
    } else {
      var n := |more| - 1;
      var before := RunJob(cfg, api, v, mid, more[..n]);
      assert forall k | 0 <= k < n :: more[..n][..k] == more[..k];
      LeadsAppend(cfg, api, v, st, ws, mid, more[..n], before);
      LeadsSnoc(cfg, api, v, st, ws + more[..n], before, more[n]);
      assert ws + more[..n] + [more[n]] == ws + more;
    }
  }

  /** The other way round: all steps but the last lead to the state the last one starts from. */
  lemma LeadsLast(cfg: Config, api: Api, v: Key, st: JobState, ws: seq<Weather>, end: JobState) returns (mid: JobState)
    requires Leads(cfg, api, v, st, ws, end) && ws != []
    ensures var n := |ws| - 1;
            && Leads(cfg, api, v, st, ws[..n], mid)
            && Possible(cfg, ws[n]) && Fits(cfg, api, v, mid, ws[n])
            && end == JobStep(cfg, api, v, mid, ws[n])
  {
    hide JobStep, Fits;
    var n := |ws| - 1;
    mid := RunJob(cfg, api, v, st, ws[..n]);
    assert forall k | 0 <= k < n :: ws[..n][..k] == ws[..k];
  }
}
