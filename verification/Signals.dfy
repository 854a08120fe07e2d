/** Taking the next deliverable signal, on the kernel's own sets. */
module Signals {
  import opened Base
  import opened Kernel
  import opened Syscalls

  datatype Delivery = NoSignal | Handler(signal: int, action: SigAction) | Fatal(status: int)

  /** The lowest member of `live` from `s` up, which is what counting trailing zeros finds. */
  function LowestFrom(live: set<int>, s: int): (r: int)
    requires 0 < s
    ensures r >= s
    ensures (exists x :: x in live && s <= x < NSIG) ==> r in live && r < NSIG
    ensures forall x :: x in live && s <= x < NSIG ==> r <= x
    decreases NSIG - s
  {
    if s >= NSIG || s in live then s else LowestFrom(live, s + 1)
  }

  /** `triage`, drop what is ignored, take the lowest deliverable signal, act on it. A deliverable
      signal is never an ignored one, so the loop around this in the source never goes round. */
  function NextSignal(pending: set<int>, t: Task): (Delivery, set<int>, Task) {
    var live := Deliverable(pending, t.sigmask, t);
    var kept := pending - Discardable(pending, t);
    if live == {} then (NoSignal, kept, t)
    else
      var s := LowestFrom(live, 1);
      var a := Action(t, s);
      if a.handler == SIG_DFL then (Fatal(StatusSignaled(s)), kept - {s}, t)
      else
        (Handler(s, a), kept - {s}, if a.resetHand && s < |t.sigact| then t.(sigact := t.sigact[s := DEFAULT_ACTION])
          else t)
  }

  lemma LowestLive(pending: set<int>, t: Task)
    requires Deliverable(pending, t.sigmask, t) != {}
    ensures var s := LowestFrom(Deliverable(pending, t.sigmask, t), 1);
      s in Deliverable(pending, t.sigmask, t) && s in pending && forall x ::
        x in Deliverable(pending, t.sigmask, t) ==> s <= x
  {
    var live := Deliverable(pending, t.sigmask, t);
    var x :| x in live;
    assert 1 <= x < NSIG;
  }
}
