// Grading one round of probes.
module Verdicts {
  import opened Tables

  datatype State = Up | Degraded | Down

  datatype Target = Target(target: string, kind: Kind, ok: bool, latency: int, error: string)

  predicate Probed(ts: seq<Target>, kind: Kind) {
    exists i :: 0 <= i < |ts| && ts[i].kind == kind
  }

  predicate Answered(ts: seq<Target>, kind: Kind) {
    exists i :: 0 <= i < |ts| && ts[i].kind == kind && ts[i].ok
  }

  predicate Silent(ts: seq<Target>, kind: Kind) {
    Probed(ts, kind) && !Answered(ts, kind)
  }

  // The only evidence a reboot may follow from: every raw dial failed, or
  // there were no raw dials and every named one failed.
  predicate LinkGone(ts: seq<Target>) {
    Silent(ts, Ip) || (!Probed(ts, Ip) && Silent(ts, Domain))
  }

  function Grade(ts: seq<Target>): State {
    if LinkGone(ts) then Down else if Silent(ts, Domain) then Degraded else Up
  }

  predicate NoneOk(group: seq<Target>) {
    group != [] && forall i :: 0 <= i < |group| ==> !group[i].ok
  }

  method AllFailed(group: seq<Target>) returns (failed: bool)
    ensures failed == NoneOk(group)
  {
    if |group| == 0 {
      return false;
    }
    for i := 0 to |group|
      invariant forall j :: 0 <= j < i ==> !group[j].ok
    {
      if group[i].ok {
        return false;
      }
    }
    return true;
  }

  // `group` lists the targets of one kind.
  predicate Collects(group: seq<Target>, ts: seq<Target>, kind: Kind) {
    && (forall i :: 0 <= i < |group| ==> group[i] in ts && group[i].kind == kind)
    && (forall i :: 0 <= i < |ts| && ts[i].kind == kind ==> ts[i] in group)
  }

  lemma CollectedFails(group: seq<Target>, ts: seq<Target>, kind: Kind)
    requires Collects(group, ts, kind)
    ensures NoneOk(group) <==> Silent(ts, kind)
    ensures group == [] <==> !Probed(ts, kind)
  {
    if group != [] {
      assert group[0] in ts;
    }
    if Answered(ts, kind) {
      var i :| 0 <= i < |ts| && ts[i].kind == kind && ts[i].ok;
      assert ts[i] in group;
    }
    forall i | 0 <= i < |group| && group[i].ok
      ensures Answered(ts, kind)
    {
      assert group[i] in ts;
    }
  }

  method Verdict(targets: seq<Target>) returns (state: State)
    ensures state.Down? <==> LinkGone(targets)
    ensures state.Degraded? <==> Answered(targets, Ip) && Silent(targets, Domain)
    ensures state.Down? <==>
      if exists i :: 0 <= i < |targets| && targets[i].kind == Ip
      then forall i :: 0 <= i < |targets| && targets[i].kind == Ip ==> !targets[i].ok
      else (exists i :: 0 <= i < |targets| && targets[i].kind == Domain)
           && forall i :: 0 <= i < |targets| && targets[i].kind == Domain ==> !targets[i].ok
    ensures state.Degraded? <==>
      && (exists i :: 0 <= i < |targets| && targets[i].kind == Ip && targets[i].ok)
      && (exists i :: 0 <= i < |targets| && targets[i].kind == Domain)
      && (forall i :: 0 <= i < |targets| && targets[i].kind == Domain ==> !targets[i].ok)
    ensures state == Grade(targets)
  {
    var ip, dom := [], [];
    for i := 0 to |targets|
      invariant Collects(ip, targets[..i], Ip)
      invariant Collects(dom, targets[..i], Domain)
    {
      assert targets[..i + 1] == targets[..i] + [targets[i]];
      match targets[i].kind
      case Ip => ip := ip + [targets[i]];
      case Domain => dom := dom + [targets[i]];
      case Gateway =>
    }
    assert targets[..|targets|] == targets;
    CollectedFails(ip, targets, Ip);
    CollectedFails(dom, targets, Domain);
    var ipFailed := AllFailed(ip);
    var domFailed := AllFailed(dom);
    state := if ipFailed then Down else if domFailed && |ip| == 0 then Down else if domFailed then Degraded else Up;
  }

  // `better` probes the same targets and at least as many of them answer.
  predicate NoWorse(better: seq<Target>, ts: seq<Target>) {
    && |better| == |ts|
    && forall i :: 0 <= i < |ts| ==> better[i].kind == ts[i].kind && (ts[i].ok ==> better[i].ok)
  }

  lemma KindsAgree(better: seq<Target>, ts: seq<Target>, kind: Kind)
    requires NoWorse(better, ts)
    ensures Probed(better, kind) == Probed(ts, kind)
    ensures Answered(ts, kind) ==> Answered(better, kind)
  {
  }

  // More answers never make the verdict worse.
  lemma MoreAnswersNeverWorse(better: seq<Target>, ts: seq<Target>)
    requires NoWorse(better, ts)
    ensures Grade(better).Down? ==> Grade(ts).Down?
    ensures Grade(better).Degraded? ==> !Grade(ts).Up?
  {
    KindsAgree(better, ts, Ip);
    KindsAgree(better, ts, Domain);
  }
}
