/**
 The reply table of `acp.rs` as one thread works on it, and its place in the
 step relation: a drain that runs undisturbed is `fail_pending`.
 */
module TransportReplyTable {
  import opened Wrappers
  import opened Transport

  function Failures(ids: set<nat>): map<nat, Answer> {
    map id | id in ids :: Failure
  }

  /** Every pending sender used for a failure. */
  function FailAll(m: Mail): Mail {
    m.(pending := {}, answers := m.answers + Failures(m.pending))
  }

  lemma {:induction false} OneMoreFailure(answers: map<nat, Answer>, ids: set<nat>, id: nat)
    ensures (answers + Failures(ids))[id := Failure] == answers + Failures(ids + {id})
    ensures id in ids ==> answers[id := Failure] + Failures(ids - {id}) == answers + Failures(ids)
  {
  }

  class ReplyTable {
    const cap: nat
    var nextId: nat
    var pending: set<nat>
    var answers: map<nat, Answer>

    ghost predicate Valid()
      reads this
    {
      && |pending| <= cap && pending !! answers.Keys
      && (forall id :: id in pending || id in answers ==> id < nextId)
    }

    ghost function Contents(): Mail
      reads this
    {
      Mail(nextId, pending, {}, answers)
    }

    constructor (cap: nat)
      ensures Valid() && this.cap == cap && Contents() == Init(cap).m
    {
      this.cap, nextId, pending, answers := cap, 1, {}, map[];
    }

    /** An id is taken for good; its slot only while the table has room. */
    method Reserve() returns (id: Option<nat>)
      requires Valid()
      modifies this`nextId, this`pending
      ensures Valid() && nextId == old(nextId) + 1
      ensures id == if |old(pending)| >= cap then None else Some(old(nextId))
      ensures pending == if id.Some? then old(pending) + {id.value} else old(pending)
    {
      var taken := nextId;
      nextId := nextId + 1;
      if |pending| >= cap {
        return None;
      }
      assert |pending + {taken}| == |pending| + 1;
      pending := pending + {taken};
      return Some(taken);
    }

    /** A failed, dropped or timed-out request removes its own slot. */
    method Remove(id: nat)
      requires Valid()
      modifies this`pending
      ensures Valid() && Contents() == RemoveOwn(old(Contents()), id)
    {
      assert |pending| == |pending - {id}| + (if id in pending then 1 else 0) by {
        assert id in pending ==> pending == (pending - {id}) + {id};
        assert id !in pending ==> pending - {id} == pending;
      }
      pending := pending - {id};
    }

    /** A line of the child: a reply goes to the request with its id and to no other; without one it is dropped. */
    method Route(line: Line) returns (event: Option<Incoming>)
      requires Valid()
      modifies this`pending, this`answers
      ensures Valid()
      ensures event.None? <==> line.Message? && line.name.None? && line.id.Num?
      ensures event.None? && line.id.n in old(pending) ==>
                && nextId == old(nextId) && pending == old(pending) - {line.id.n}
                && answers == old(answers)[line.id.n := Reply(line.id.n, !line.failed, line.body)]
      ensures event.Some? || line.id.n !in old(pending) ==> Contents() == old(Contents())
      ensures event.Some? ==> Arrives(line, event.value)
    {
      match RouteOf(line)
      case ToConsumer(e) => return Some(e);
      case ToCaller(answer) =>
        if answer.id in pending {
          Remove(answer.id);
          answers := answers[answer.id := answer];
        }
        return None;
    }

    /** `fail_pending`: the table is emptied first, then every sender is used. */
    method FailPending()
      requires Valid()
      modifies this`pending, this`answers
      ensures Valid() && Contents() == FailAll(old(Contents()))
    {
      var senders := pending;
      pending := {};
      ghost var used: set<nat> := {};
      assert old(answers) + Failures({}) == old(answers);
      while senders != {}
        invariant used !! senders && used + senders == old(pending) && pending == {}
        invariant answers == old(answers) + Failures(used)
        decreases |senders|
      {
        var id :| id in senders;
        OneMoreFailure(old(answers), used, id);
        answers := answers[id := Failure];
        senders, used := senders - {id}, used + {id};
      }
    }
  }

  // ---- in the step relation ----

  function MailAt(m: Mail, left: set<nat>): Mail {
    m.(inHand := m.inHand - left, answers := m.answers + Failures(left))
  }

  /** The state once call `k` has used all the senders in its hand. */
  function Emptied(s: State, k: nat, left: set<nat>): State
    requires k < |s.calls|
  {
    s.(m := MailAt(s.m, left), calls := s.calls[k := s.calls[k].(pc := Failed(s.calls[k]))])
  }

  lemma {:induction false} PlayFirst(s: State, step: Step, rest: seq<Step>)
    requires s.cap > 0 && Do(s, step).Some?
    ensures Play(s, [step] + rest) == Play(Do(s, step).value, rest)
    decreases |rest|
  {
    var all := [step] + rest;
    if rest == [] {
      assert all[..0] == [] && all == [step];
    } else {
      PlayFirst(s, step, rest[..|rest| - 1]);
      assert all[..|all| - 1] == [step] + rest[..|rest| - 1];
    }
  }

  /** Left alone, a thread that failed its write uses every sender it drained, in any order. */
  lemma {:induction false} HandEmpties(s: State, k: nat, left: set<nat>) returns (steps: seq<Step>)
    requires s.cap > 0 && k < |s.calls| && s.calls[k].pc == FailingReplies(left) && left !! s.m.answers.Keys
    ensures Play(s, steps) == Some(Emptied(s, k, left))
    decreases |left|
  {
    if left == {} {
      assert s.m.answers + Failures(left) == s.m.answers && s.m.inHand - left == s.m.inHand;
      steps := [CallStep(k, Go)];
      assert steps[..0] == [];
    } else {
      var id :| id in left;
      var step := CallStep(k, Pick(id));
      var next := Do(s, step).value;
      SenderUsed(s, k, left, id);
      var rest := HandEmpties(next, k, left - {id});
      PlayFirst(s, step, rest);
      steps := [step] + rest;
    }
  }

  lemma {:induction false} SenderUsed(s: State, k: nat, left: set<nat>, id: nat)
    requires s.cap > 0 && k < |s.calls| && s.calls[k].pc == FailingReplies(left) && id in left && id !in s.m.answers
    ensures var next := Do(s, CallStep(k, Pick(id)));
      && next.Some? && next.value.cap == s.cap && next.value.m.answers == s.m.answers[id := Failure]
      && |next.value.calls| == |s.calls| && next.value.calls[k].pc == FailingReplies(left - {id})
      && Emptied(next.value, k, left - {id}) == Emptied(s, k, left)
  {
    var next := Do(s, CallStep(k, Pick(id))).value;
    assert next.m == Answered(s.m, id, Failure);
    OneMoreFailure(s.m.answers, left, id);
    assert s.m.inHand - {id} - (left - {id}) == s.m.inHand - left;
    assert MailAt(next.m, left - {id}) == MailAt(s.m, left);
    assert Emptied(next, k, left - {id}).calls == Emptied(s, k, left).calls;
  }

  /**
   A drain that no other thread disturbs empties the table and answers every
   pending request, as `FailPending` does.
   */
  lemma {:induction false} UndisturbedDrain(s: State, k: nat) returns (steps: seq<Step>)
    requires s.cap > 0 && k < |s.calls| && s.calls[k].pc.DrainingReplies?
    requires s.m.pending !! s.m.answers.Keys && s.m.pending !! s.m.inHand
    ensures Play(s, steps).Some? && Play(s, steps).value.m == FailAll(s.m)
  {
    var next := Do(s, CallStep(k, Go)).value;
    var rest := HandEmpties(next, k, s.m.pending);
    PlayFirst(s, CallStep(k, Go), rest);
    steps := [CallStep(k, Go)] + rest;
    assert next.m.inHand - s.m.pending == s.m.inHand;
  }
}
