/**
 What a reconciliation of one Bucket resource works with: a session issues calls one
 at a time, and between any two of them everybody else may move.

 How the services answer and what the others do are parameters of the session; all
 that is known of them is that every answer is one `Serves` allows and every move of
 the others a step of the protocol, and that the others come to rest eventually.
 */
module Sessions {
  import opened Base
  import opened Cloud
  import opened Protocol

  /** A step of anybody but the reconciliation of `me`. */
  ghost predicate ForeignStep(me: Key, s: Sys, s': Sys) {
    || (exists k, r, resp :: k != me && CallStep(s, k, r, resp, s'))
    || (exists k :: k != me && EndStep(s, k, s'))
    || EnvStep(s, s')
  }

  ghost predicate ForeignPath(me: Key, s: Sys, path: seq<Sys>)
    decreases |path|
  {
    path == [] || (ForeignStep(me, s, path[0]) && ForeignPath(me, path[0], path[1..]))
  }

  function Last(s: Sys, path: seq<Sys>): Sys {
    if path == [] then s else path[|path| - 1]
  }

  /** How often calls of one resource's reconciliations were answered in the ways contracts speak of. */
  datatype Tally = Tally(
    readings: nat,    // the resource was read
    absences: nat,    // the read answered that there is no such resource
    lookups: nat,     // the cluster was looked up
    sightings: nat,   // the existence check answered that the storage exists
    failures: nat,    // any call failed
    passedOver: nat)  // a call on an instance profile failed without the service reporting it

  predicate Sighting(r: Req) {
    (r.OnS3? && r.s3.Head?) || (r.OnAz? && r.az.GetContainer?)
  }

  predicate OnProfile(r: Req) {
    r.OnIam? && (r.iam.RemoveFromProfile? || r.iam.DeleteProfile?)
  }

  function Counted(t: Tally, r: Req, resp: Resp): Tally {
    if r.Kube? && r.kube.GetCr? && resp.GotBucket? then t.(readings := t.readings + 1)
    else if r.Kube? && r.kube.GetCr? && resp == Missing then t.(absences := t.absences + 1)
    else if r.GetCluster? && resp.GotCluster? then t.(lookups := t.lookups + 1)
    else if Sighting(r) && resp == Done then t.(sightings := t.sightings + 1)
    else if resp.Failed? then
      t.(failures := t.failures + 1, passedOver := t.passedOver + if OnProfile(r) && resp == Failed(false) then 1 else 0)
    else t
  }

  predicate AtMost(t: Tally, t': Tally) {
    t.readings <= t'.readings && t.absences <= t'.absences && t.lookups <= t'.lookups &&
    t.sightings <= t'.sightings && t.failures <= t'.failures && t.passedOver <= t'.passedOver
  }

  lemma CountedGrows(t: Tally, r: Req, resp: Resp)
    ensures AtMost(t, Counted(t, r, resp))
  {
  }

  /** The tally of a call history. */
  function TallyOf(log: seq<Entry>, me: Key): Tally {
    if log == [] then Tally(0, 0, 0, 0, 0, 0)
    else
      var before, last := TallyOf(log[..|log| - 1], me), log[|log| - 1];
      if last.k == me then Counted(before, last.r, last.resp) else before
  }

  lemma TallyGrows(log: seq<Entry>, e: Entry, me: Key)
    ensures TallyOf(log + [e], me) == if e.k == me then Counted(TallyOf(log, me), e.r, e.resp) else TallyOf(log, me)
  {
    assert (log + [e])[..|log|] == log;
  }

  /** The others touch neither the program counter of `me` nor its tally. */
  lemma {:induction false} ForeignKeeps(me: Key, s: Sys, path: seq<Sys>)
    requires ForeignPath(me, s, path)
    ensures PcOf(Last(s, path), me) == PcOf(s, me)
    ensures Last(s, path).w.provider == s.w.provider
    ensures TallyOf(Last(s, path).log, me) == TallyOf(s.log, me)
    decreases |path|
  {
    hide Serves, Allowed, Next, TallyOf;
    if path != [] {
      if k, r, resp :| k != me && CallStep(s, k, r, resp, path[0]) {
        TallyGrows(s.log, Entry(k, r, resp), me);
      }
      ForeignKeeps(me, path[0], path[1..]);
    }
  }

  lemma {:induction false} RunGrows(me: Key, run: seq<Sys>, path: seq<Sys>)
    requires IsRun(run) && ForeignPath(me, run[|run| - 1], path)
    ensures IsRun(run + path) && (run + path)[|run + path| - 1] == Last(run[|run| - 1], path)
    decreases |path|
  {
    hide CallStep, EnvStep;
    if path == [] {
      assert run + path == run;
    } else {
      assert Step(run[|run| - 1], path[0]);
      RunAppends(run, path[0]);
      RunGrows(me, run + [path[0]], path[1..]);
      assert run + [path[0]] + path[1..] == run + path;
    }
  }

  lemma RunAppends(run: seq<Sys>, s: Sys)
    requires IsRun(run) && Step(run[|run| - 1], s)
    ensures IsRun(run + [s])
  {
    hide Step;
    var r := run + [s];
    forall i | 0 <= i < |r| - 1
      ensures Step(r[i], r[i + 1])
    {
      if i < |run| - 1 {
        assert Step(run[i], run[i + 1]);
      }
    }
  }

  class Session {
    const me: Key
    const answer: (nat, Sys, Req) -> (Resp, World)
    const others: (nat, Sys) -> seq<Sys>
    const horizon: nat
    ghost const start: Sys

    var clock: nat
    var sys: Sys

    ghost var run: seq<Sys>
    ghost var foreign: nat  // how many steps the others took
    ghost var faults: nat   // how many calls were not answered as a fault-free service would
    ghost var tally: Tally

    ghost predicate Honest() {
      && (forall t: nat, s: Sys, r: Req :: Serves(s.w, me, r, answer(t, s, r).0, answer(t, s, r).1))
      && (forall t: nat, s: Sys :: ForeignPath(me, s, others(t, s)) && (t >= horizon ==> others(t, s) == []))
    }

    /** What happened so far is a run of the protocol, and the tally is that of its calls. */
    ghost predicate Valid()
      reads this
    {
      Honest() && IsRun(run) && run[0] == start && run[|run| - 1] == sys && tally == TallyOf(sys.log, me)
    }

    function Pc(): Pc
      reads this
    {
      PcOf(sys, me)
    }

    function Provider(): Provider
      reads this
    {
      sys.w.provider
    }

    /** Calls the session may still have to share with the others. */
    function Unsettled(): nat
      reads this
    {
      if clock < horizon then horizon - clock else 0
    }

    twostate predicate Advanced()
      reads this
    {
      && old(clock) <= clock && old(foreign) <= foreign && old(faults) <= faults && Provider() == old(Provider())
      && AtMost(old(tally), tally)
    }

    /** Nobody else moved. */
    twostate predicate Quiet()
      reads this
    {
      foreign == old(foreign)
    }

    /** Nobody else moved and every call was answered as by a fault-free service. */
    twostate predicate Clean()
      reads this
    {
      foreign == old(foreign) && faults == old(faults)
    }

    constructor (me: Key, answer: (nat, Sys, Req) -> (Resp, World), others: (nat, Sys) -> seq<Sys>, horizon: nat, sys: Sys)
      requires forall t: nat, s: Sys, r: Req :: Serves(s.w, me, r, answer(t, s, r).0, answer(t, s, r).1)
      requires forall t: nat, s: Sys :: ForeignPath(me, s, others(t, s)) && (t >= horizon ==> others(t, s) == [])
      ensures Valid() && this.me == me && this.sys == sys && this.start == sys
    {
      this.me, this.answer, this.others, this.horizon := me, answer, others, horizon;
      this.start, this.sys, this.run := sys, sys, [sys];
      this.clock, this.foreign, this.faults, this.tally := 0, 0, 0, TallyOf(sys.log, me);
    }

    /** The others move, then the call is answered. */
    method Call(r: Req) returns (resp: Resp)
      requires Valid() && Allowed(Provider(), me, Pc(), r)
      modifies this
      ensures Valid() && Advanced() && clock == old(clock) + 1
      ensures tally == Counted(old(tally), r, resp)
      ensures Pc() == Next(Provider(), old(Pc()), r, resp)
      ensures Quiet() ==> Serves(old(sys.w), me, r, resp, sys.w)
      ensures Clean() ==> Replies(old(sys.w), me, r, resp, sys.w)
      ensures old(clock) >= horizon ==> Quiet()
    {
      hide Serves, Replies, Allowed, Next, Step, TallyOf, Counted;
      var path := others(clock, sys);
      ForeignKeeps(me, sys, path);
      RunGrows(me, run, path);
      foreign, run := foreign + |path|, run + path;
      sys := Last(sys, path);
      var (reply, w) := answer(clock, sys, r);
      assert Serves(sys.w, me, r, answer(clock, sys, r).0, answer(clock, sys, r).1);
      ServesProvider(sys.w, me, r, reply, w);
      if !Replies(sys.w, me, r, reply, w) {
        faults := faults + 1;
      }
      ghost var before := sys;
      sys := Sys(w, sys.pcs[me := Next(Provider(), Pc(), r, reply)], sys.log + [Entry(me, r, reply)]);
      TallyGrows(before.log, Entry(me, r, reply), me);
      CountedGrows(tally, r, reply);
      tally := Counted(tally, r, reply);
      assert CallStep(before, me, r, reply, sys);
      CallIsStep(before, me, r, reply, sys);
      RunAppends(run, sys);
      run, clock, resp := run + [sys], clock + 1, reply;
    }

    method CallS3(q: S3Req) returns (resp: Resp)
      requires Valid() && Allowed(Provider(), me, Pc(), OnS3(q))
      modifies this
      ensures Valid() && Advanced() && clock == old(clock) + 1 && (old(clock) >= horizon ==> Quiet())
      ensures tally.sightings == old(tally.sightings) + if q.Head? && resp == Done then 1 else 0
      ensures Pc() == Next(Provider(), old(Pc()), OnS3(q), resp)
      ensures Quiet() ==> sys.w == old(sys.w).(s3 := sys.w.s3) && S3Serves(old(sys.w.s3), me, q, resp, sys.w.s3)
      ensures Clean() ==> S3Reply(old(sys.w.s3), q, resp) && sys.w.s3 == S3Effect(old(sys.w.s3), me, q)
    {
      hide Session.Valid, Allowed, Next, S3Serves;
      resp := Call(OnS3(q));
    }

    method CallIam(q: IamReq) returns (resp: Resp)
      requires Valid() && Allowed(Provider(), me, Pc(), OnIam(q))
      modifies this
      ensures Valid() && Advanced() && clock == old(clock) + 1
      ensures tally.passedOver == old(tally.passedOver) + if OnProfile(OnIam(q)) && resp == Failed(false) then 1 else 0
      ensures tally.failures == old(tally.failures) + if resp.Failed? then 1 else 0
      ensures Pc() == Next(Provider(), old(Pc()), OnIam(q), resp)
      ensures Quiet() ==> sys.w == old(sys.w).(iam := sys.w.iam) && IamServes(old(sys.w.iam), me, q, resp, sys.w.iam)
      ensures Clean() ==> IamReply(old(sys.w.iam), q, resp) && sys.w.iam == IamEffect(old(sys.w.iam), me, q)
    {
      hide Session.Valid, Allowed, Next, IamServes;
      resp := Call(OnIam(q));
    }

    method CallAz(q: AzReq) returns (resp: Resp)
      requires Valid() && Allowed(Provider(), me, Pc(), OnAz(q))
      modifies this
      ensures Valid() && Advanced() && clock == old(clock) + 1
      ensures tally.sightings == old(tally.sightings) + if q.GetContainer? && resp == Done then 1 else 0
      ensures Pc() == Next(Provider(), old(Pc()), OnAz(q), resp)
      ensures Quiet() ==> sys.w == old(sys.w).(az := sys.w.az) && AzServes(old(sys.w.az), me, q, resp, sys.w.az)
      ensures Clean() ==> AzReply(old(sys.w.az), q, resp) && sys.w.az == AzEffect(old(sys.w.az), me, q)
    {
      hide Session.Valid, Allowed, Next, AzServes;
      resp := Call(OnAz(q));
    }

    method CallSecret(q: SecretReq) returns (resp: Resp)
      requires Valid() && Allowed(Provider(), me, Pc(), OnSecret(q))
      modifies this
      ensures Valid() && Advanced() && clock == old(clock) + 1
      ensures Pc() == Next(Provider(), old(Pc()), OnSecret(q), resp)
      ensures Quiet() ==> sys.w == old(sys.w).(secrets := sys.w.secrets) && SecretServes(old(sys.w.secrets), me, q, resp, sys.w.secrets)
      ensures Clean() ==> SecretReply(old(sys.w.secrets), q, resp) && sys.w.secrets == SecretEffect(old(sys.w.secrets), me, q)
    {
      hide Session.Valid, Allowed, Next, SecretServes;
      resp := Call(OnSecret(q));
    }

    method CallKube(q: KubeReq) returns (resp: Resp)
      requires Valid() && Allowed(Provider(), me, Pc(), Kube(q))
      modifies this
      ensures Valid() && Advanced() && clock == old(clock) + 1
      ensures q.GetCr? ==> tally.readings == old(tally.readings) + if resp.GotBucket? then 1 else 0
      ensures q.GetCr? ==> tally.absences == old(tally.absences) + if resp == Missing then 1 else 0
      ensures Pc() == Next(Provider(), old(Pc()), Kube(q), resp)
      ensures Quiet() ==> sys.w == old(sys.w).(feeds := sys.w.feeds) && KubeServes(old(sys.w.feeds), q, resp, sys.w.feeds)
      ensures Clean() ==> KubeReplies(old(sys.w.feeds), q, resp, sys.w.feeds)
    {
      hide Session.Valid, Allowed, Next, KubeServes, KubeReplies;
      resp := Call(Kube(q));
    }

    /** The reconciliation returns. */
    method Return()
      requires Valid()
      modifies this
      ensures Valid() && Advanced() && Quiet() && Clean()
      ensures Pc() == Idle && sys.w == old(sys.w) && tally == old(tally)
    {
      hide Step;
      ghost var before := sys;
      sys := sys.(pcs := sys.pcs[me := Idle]);
      EndIsStep(before, me, sys);
      RunAppends(run, sys);
      run := run + [sys];
    }
  }

  lemma ServesProvider(w: World, k: Key, r: Req, resp: Resp, w': World)
    requires Serves(w, k, r, resp, w')
    ensures w'.provider == w.provider
  {
    hide KubeServes, S3Serves, IamServes, AzServes, SecretServes;
  }

  lemma CallIsStep(s: Sys, k: Key, r: Req, resp: Resp, s': Sys)
    requires CallStep(s, k, r, resp, s')
    ensures Step(s, s')
  {
    hide CallStep;
  }

  lemma EndIsStep(s: Sys, k: Key, s': Sys)
    requires EndStep(s, k, s')
    ensures Step(s, s')
  {
    hide CallStep, EnvStep;
  }
}
