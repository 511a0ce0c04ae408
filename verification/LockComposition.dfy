/**
Ties the owner's script and the executor to the protocol: whatever they do to a
claim in place is a content step of the transition system, so the protocol's
theorems apply to the real owner and executor.
*/
module LockComposition {
  import LockOwner
  import LockProtocol

  /** A command changes the claim by a content step, or releases it. */
  lemma {:induction false} CommandIsContentStep(s: LockOwner.OwnerState, line: LockOwner.Line, done: nat)
    requires s.dir.Some? && LockOwner.Recorded(s, s.dir.value)
    requires !LockOwner.MarksLive(s, LockOwner.Command(line, done))
    ensures var t := LockOwner.Handle(s, line, done).0;
      if line.ReleaseLine? then t.dir.None?
      else t.dir.Some? && LockProtocol.ContentStep(s.dir.value, t.dir.value)
  {
  }

  /** The exit trap leaves the claim as a content step would, or removes it. */
  lemma {:induction false} CleanupIsContentStep(s: LockOwner.OwnerState)
    requires s.dir.Some?
    ensures LockOwner.Cleaned(s).dir.Some? ==> LockProtocol.ContentStep(s.dir.value, LockOwner.Cleaned(s).dir.value)
  {
  }

  /** Over a whole tenure that keeps its record every event that leaves a claim in its path
      changes it by content steps: one for the event, one more for the exit trap. */
  lemma {:induction false} TenureMovesByContentSteps(t: LockOwner.Tenure, events: seq<LockOwner.Event>, event: LockOwner.Event)
    requires LockOwner.InTenure(t) && !t.exited && LockOwner.Unmarked(t, events)
    requires var now := LockOwner.Tenured(t, events);
      !now.exited && now.s.dir.Some? && !LockOwner.MarksLive(now.s, event)
    ensures var now := LockOwner.Tenured(t, events); var next := LockOwner.Advance(now, event);
      next.s.dir.Some? ==>
        exists mid :: LockProtocol.ContentStep(now.s.dir.value, mid) && LockProtocol.ContentStep(mid, next.s.dir.value)
  {
    LockOwner.SettledUpTo(t, events, |events|);
    assert events[..|events|] == events;
    var now := LockOwner.Tenured(t, events);
    var c := now.s.dir.value;
    var next := LockOwner.Advance(now, event);
    if next.s.dir.Some? {
      if event.Command? {
        CommandIsContentStep(now.s, event.line, event.done);
        var s := LockOwner.Handle(now.s, event.line, event.done).0;
        if s.dir.Some? {
          CleanupIsContentStep(s);
          assert LockProtocol.ContentStep(c, s.dir.value) && LockProtocol.ContentStep(s.dir.value, next.s.dir.value);
        }
      } else if event.ChannelLost? {
        CleanupIsContentStep(now.s);
        assert LockProtocol.ContentStep(c, c) && LockProtocol.ContentStep(c, next.s.dir.value);
      } else {
        assert LockProtocol.ContentStep(c, c) && LockProtocol.ContentStep(c, next.s.dir.value);
      }
    }
  }
}
