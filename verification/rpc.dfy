/** Request and reply matching of the database client (`serverutil::DbClient`), with
    callbacks that issue further calls. */
module Rpc {
  import opened Common

  datatype Request =
    | LookupAccount | CreateAccount | DeleteAccount | CreateAccountWithLevel | SetPermissionLevel
    | AdminExists | CreateSession | LookupSession | DeleteSession

  /** The message type that answers a request. */
  function Answer(r: Request): nat {
    match r
    case LookupAccount => 101
    case CreateAccount => 103
    case DeleteAccount => 111
    case CreateAccountWithLevel => 103
    case SetPermissionLevel => 113
    case AdminExists => 116
    case CreateSession => 105
    case LookupSession => 107
    case DeleteSession => 109
  }

  /** The message type a request goes out under. */
  function RequestType(r: Request): nat {
    match r
    case LookupAccount => 100
    case CreateAccount => 102
    case CreateSession => 104
    case LookupSession => 106
    case DeleteSession => 108
    case DeleteAccount => 110
    case SetPermissionLevel => 112
    case CreateAccountWithLevel => 114
    case AdminExists => 115
  }

  /** Requests and answers are told apart by type, and only the two ways to create an
      account share an answer, which is that of the simpler one. */
  lemma AnswersFollowRequests(r: Request, q: Request)
    ensures Answer(r) == 1 + RequestType(if r == CreateAccountWithLevel then CreateAccount else r)
    ensures Answer(r) != RequestType(q)
    ensures Answer(r) == Answer(q) <==>
              r == q || ((r.CreateAccount? || r.CreateAccountWithLevel?) && (q.CreateAccount? || q.CreateAccountWithLevel?))
  {
  }

  /** A call and what its callback goes on to issue. A callback runs at most once, so it
      is enough to say what it issues with a result and with a failure. */
  datatype Call = Call(request: Request, onResult: seq<Call>, onFailure: seq<Call>)

  /** A message: the id at its front, if there is one, its type, and whether the rest
      holds all the fields of that type. */
  datatype Reply = Reply(id: Option<nat>, kind: nat, complete: bool)

  /** A handler waiting under its request id; tickets number the calls as issued. */
  datatype Entry = Entry(id: nat, ticket: nat, call: Call)

  /** A callback that has run: with the result a reply brought, or with a failure. */
  datatype Resolution = Result(ticket: nat, reply: Reply) | Failure(ticket: nat)

  /** The client: `pending` in the order of the ids, `issued` the number of calls made,
      `requests` what was sent under each id, `log` the callbacks run, in order. */
  datatype State = State(connected: bool, pending: seq<Entry>, nextId: nat,
                         issued: nat, requests: map<nat, Entry>, log: seq<Resolution>)

  // ------------------------------------------------------- what the calls do

  function Issue(s: State, c: Call): State
    decreases c, 1
  {
    if !s.connected then Resolve(s.(issued := s.issued + 1), c, Failure(s.issued))
    else
      var e := Entry(s.nextId, s.issued, c);
      s.(nextId := s.nextId + 1, pending := s.pending + [e], issued := s.issued + 1, requests := s.requests[e.id := e])
  }

  function IssueAll(s: State, cs: seq<Call>): State
    decreases cs
  {
    if cs == [] then s else IssueAll(Issue(s, cs[0]), cs[1..])
  }

  /** Run a callback, once. */
  function Resolve(s: State, c: Call, r: Resolution): State
    decreases c, 0
  {
    IssueAll(s.(log := s.log + [r]), if r.Result? then c.onResult else c.onFailure)
  }

  function Find(pending: seq<Entry>, id: nat): (k: nat)
    ensures k <= |pending| && (k < |pending| ==> pending[k].id == id)
  {
    if pending == [] || pending[0].id == id then 0 else 1 + Find(pending[1..], id)
  }

  function Without(pending: seq<Entry>, k: nat): seq<Entry>
    requires k < |pending|
  {
    pending[..k] + pending[k + 1..]
  }

  /** What a reply tells the handler it belongs to. */
  function Outcome(e: Entry, reply: Reply): Resolution {
    if reply.kind == Answer(e.call.request) && reply.complete then Result(e.ticket, reply) else Failure(e.ticket)
  }

  /** Replies without an id, and duplicate or unsolicited ones, do nothing. */
  function Replied(s: State, reply: Reply): State {
    if reply.id.None? || Find(s.pending, reply.id.value) == |s.pending| then s
    else
      var k := Find(s.pending, reply.id.value);
      var e := s.pending[k];
      Resolve(s.(pending := Without(s.pending, k)), e.call, Outcome(e, reply))
  }

  function RepliedAll(s: State, replies: seq<Reply>): State
    decreases |replies|
  {
    if replies == [] then s else RepliedAll(Replied(s, replies[0]), replies[1..])
  }

  function FailedEach(s: State, entries: seq<Entry>): State
    decreases |entries|
  {
    if entries == [] then s else FailedEach(Resolve(s, entries[0].call, Failure(entries[0].ticket)), entries[1..])
  }

  function Dropped(s: State): State { FailedEach(s.(connected := false, pending := []), s.pending) }

  function Polled(s: State, replies: seq<Reply>, dropped: bool): State {
    if !s.connected then s else if dropped then Dropped(s) else RepliedAll(s, replies)
  }

  // ----------------------------------------------------------------- in place

  class DbClient {
    var connected: bool
    var pending: seq<Entry>
    var nextRequestId: nat
    /** Numbers the callbacks, which the source knows by their closures. */
    var issued: nat
    ghost var requests: map<nat, Entry>
    ghost var log: seq<Resolution>

    ghost function Now(): State
      reads this
    {
      State(connected, pending, nextRequestId, issued, requests, log)
    }

    constructor ()
      ensures Now() == State(false, [], 1, 0, map[], [])
    {
      connected, pending, nextRequestId := false, [], 1;
      issued, requests, log := 0, map[], [];
    }

    method Connect()
      modifies this
      ensures Now() == old(Now()).(connected := true)
    {
      connected := true;
    }

    /** Any of the request methods. Without a connection the callback fails at once. */
    method Request(call: Call)
      modifies this
      ensures Now() == Issue(old(Now()), call)
      decreases call, 1
    {
      var ticket := issued;
      issued := issued + 1;
      if !connected {
        Callback(call, Failure(ticket), false);
        return;
      }
      var requestId := nextRequestId;
      nextRequestId := nextRequestId + 1;
      var entry := Entry(requestId, ticket, call);
      requests := requests[requestId := entry];
      pending := pending + [entry];
    }

    /** The callback of a call, with a result or a failure. */
    method Callback(call: Call, ghost r: Resolution, ok: bool)
      requires ok == r.Result?
      modifies this
      ensures Now() == Resolve(old(Now()), call, r)
      decreases call, 0
    {
      log := log + [r];
      if ok { RequestAll(call.onResult); } else { RequestAll(call.onFailure); }
    }

    method RequestAll(calls: seq<Call>)
      modifies this
      ensures Now() == IssueAll(old(Now()), calls)
      decreases calls
    {
      if calls != [] {
        Request(calls[0]);
        RequestAll(calls[1..]);
      }
    }

    method FailAllPending()
      modifies this
      ensures Now() == FailedEach(old(Now()).(pending := []), old(pending))
    {
      var moved := pending;
      pending := [];
      var k := 0;
      assert moved[0..] == moved;
      while k < |moved|
        invariant k <= |moved|
        invariant FailedEach(Now(), moved[k..]) == FailedEach(old(Now()).(pending := []), moved)
      {
        assert moved[k..][1..] == moved[k + 1..];
        Callback(moved[k].call, Failure(moved[k].ticket), false);
        k := k + 1;
      }
    }

    method HandleReply(reply: Reply)
      modifies this
      ensures Now() == Replied(old(Now()), reply)
    {
      if reply.id.None? { return; }
      var k := Find(pending, reply.id.value);
      if k == |pending| { return; }
      var handler := pending[k];
      pending := pending[..k] + pending[k + 1..];
      var ok := reply.kind == Answer(handler.call.request) && reply.complete;
      Callback(handler.call, Outcome(handler, reply), ok);
    }

    /** `dropped` when the socket fails; else `replies` have arrived whole. */
    method Poll(replies: seq<Reply>, dropped: bool) returns (ok: bool)
      modifies this
      ensures Now() == Polled(old(Now()), replies, dropped) && ok == (old(connected) && !dropped)
    {
      if !connected { return false; }
      if dropped {
        connected := false;
        FailAllPending();
        return false;
      }
      var k := 0;
      assert replies[0..] == replies;
      while k < |replies|
        invariant k <= |replies|
        invariant RepliedAll(Now(), replies[k..]) == RepliedAll(old(Now()), replies)
      {
        assert replies[k..][1..] == replies[k + 1..];
        HandleReply(replies[k]);
        k := k + 1;
      }
      ok := true;
    }
  }

  // -------------------------------------------------------- what always holds

  function One(b: bool): nat { if b then 1 else 0 }

  /** How often ticket t is waiting. */
  ghost function Waiting(entries: seq<Entry>, t: nat): nat {
    if entries == [] then 0 else One(entries[0].ticket == t) + Waiting(entries[1..], t)
  }

  /** How often the callback of ticket t has run. */
  ghost function Ran(log: seq<Resolution>, t: nat): nat {
    if log == [] then 0 else Ran(log[..|log| - 1], t) + One(log[|log| - 1].ticket == t)
  }

  /** The call of ticket t, if it has been made, is waiting, or its callback has run, or
      it is about to be (`held`). */
  ghost predicate Balanced(s: State, t: nat, held: nat) {
    Waiting(s.pending, t) + Ran(s.log, t) + held == One(t < s.issued)
  }

  ghost predicate Sent(s: State, e: Entry) { e.id in s.requests && s.requests[e.id] == e }

  /** The reply is one of those heard, and answers the request of that ticket under the
      very id it was sent with. */
  ghost predicate Answers(s: State, ticket: nat, reply: Reply, heard: set<Reply>) {
    && reply in heard && reply.complete && reply.id.Some? && reply.id.value in s.requests
    && (var e := s.requests[reply.id.value]; e.ticket == ticket && reply.kind == Answer(e.call.request))
  }

  ghost predicate IdsMatch(s: State, heard: set<Reply>) {
    && (forall j, k :: 0 <= j < k < |s.pending| ==> s.pending[j].id < s.pending[k].id)
    && (forall k :: 0 <= k < |s.pending| ==> Sent(s, s.pending[k]))
    && (forall id :: id in s.requests ==> id < s.nextId && s.requests[id].ticket < s.issued)
    && (forall i, j :: i in s.requests && j in s.requests && i != j ==> s.requests[i].ticket != s.requests[j].ticket)
    && (forall k :: 0 <= k < |s.log| && s.log[k].Result? ==> Answers(s, s.log[k].ticket, s.log[k].reply, heard))
    && (!s.connected ==> s.pending == [])
  }

  ghost predicate Inv(s: State, t: nat, held: nat, heard: set<Reply>) { Balanced(s, t, held) && IdsMatch(s, heard) }

  lemma {:induction false} WaitingConcat(a: seq<Entry>, b: seq<Entry>, t: nat)
    ensures Waiting(a + b, t) == Waiting(a, t) + Waiting(b, t)
    decreases |a|
  {
    if a == [] {
      assert a + b == b;
    } else {
      WaitingConcat(a[1..], b, t);
      assert (a + b)[1..] == a[1..] + b;
    }
  }

  lemma WaitingSnoc(a: seq<Entry>, e: Entry, t: nat)
    ensures Waiting(a + [e], t) == Waiting(a, t) + One(e.ticket == t)
  {
    WaitingConcat(a, [e], t);
    assert Waiting([e], t) == One(e.ticket == t) + Waiting([e][1..], t);
  }

  lemma WaitingWithout(pending: seq<Entry>, k: nat, t: nat)
    requires k < |pending|
    ensures Waiting(pending, t) == Waiting(Without(pending, k), t) + One(pending[k].ticket == t)
  {
    WaitingConcat(pending[..k], pending[k + 1..], t);
    WaitingConcat(pending[..k + 1], pending[k + 1..], t);
    WaitingSnoc(pending[..k], pending[k], t);
    assert pending[..k] + [pending[k]] == pending[..k + 1] && pending[..k + 1] + pending[k + 1..] == pending;
  }

  lemma RanSnoc(log: seq<Resolution>, r: Resolution, t: nat)
    ensures Ran(log + [r], t) == Ran(log, t) + One(r.ticket == t)
  {
  }

  // --------------------------------------------------------------- every call

  lemma RegisterKeepsIds(s: State, c: Call, heard: set<Reply>)
    requires IdsMatch(s, heard) && s.connected
    ensures IdsMatch(Issue(s, c), heard)
  {
  }

  lemma RegisterKeeps(s: State, c: Call, t: nat, held: nat, heard: set<Reply>)
    requires Inv(s, t, held, heard) && s.connected
    ensures Inv(Issue(s, c), t, held, heard)
  {
    RegisterKeepsIds(s, c, heard);
    WaitingSnoc(s.pending, Entry(s.nextId, s.issued, c), t);
  }

  lemma {:induction false} IssueKeeps(s: State, c: Call, t: nat, held: nat, heard: set<Reply>)
    requires Inv(s, t, held, heard)
    ensures Inv(Issue(s, c), t, held, heard) && Issue(s, c).connected == s.connected
    decreases c, 1
  {
    if s.connected {
      RegisterKeeps(s, c, t, held, heard);
    } else {
      ResolveKeeps(s.(issued := s.issued + 1), c, Failure(s.issued), t, held, heard);
    }
  }

  lemma {:induction false} IssueAllKeeps(s: State, cs: seq<Call>, t: nat, held: nat, heard: set<Reply>)
    requires Inv(s, t, held, heard)
    ensures Inv(IssueAll(s, cs), t, held, heard) && IssueAll(s, cs).connected == s.connected
    decreases cs
  {
    if cs != [] {
      IssueKeeps(s, cs[0], t, held, heard);
      IssueAllKeeps(Issue(s, cs[0]), cs[1..], t, held, heard);
    }
  }

  lemma {:induction false} ResolveKeeps(s: State, c: Call, r: Resolution, t: nat, held: nat, heard: set<Reply>)
    requires Inv(s, t, held + One(r.ticket == t), heard) && (r.Result? ==> Answers(s, r.ticket, r.reply, heard))
    ensures Inv(Resolve(s, c, r), t, held, heard) && Resolve(s, c, r).connected == s.connected
    decreases c, 0
  {
    RanSnoc(s.log, r, t);
    IssueAllKeeps(s.(log := s.log + [r]), if r.Result? then c.onResult else c.onFailure, t, held, heard);
  }

  lemma RemovalKeepsIds(s: State, k: nat, heard: set<Reply>)
    requires IdsMatch(s, heard) && k < |s.pending|
    ensures IdsMatch(s.(pending := Without(s.pending, k)), heard)
  {
  }

  lemma ReplyKeeps(s: State, reply: Reply, t: nat, heard: set<Reply>)
    requires Inv(s, t, 0, heard) && s.connected && reply in heard
    ensures Inv(Replied(s, reply), t, 0, heard) && Replied(s, reply).connected
  {
    if reply.id.Some? && Find(s.pending, reply.id.value) < |s.pending| {
      var k := Find(s.pending, reply.id.value);
      RemovalKeepsIds(s, k, heard);
      WaitingWithout(s.pending, k, t);
      ResolveKeeps(s.(pending := Without(s.pending, k)), s.pending[k].call, Outcome(s.pending[k], reply), t, 0, heard);
    }
  }

  lemma {:induction false} RepliesKeep(s: State, replies: seq<Reply>, t: nat, heard: set<Reply>)
    requires Inv(s, t, 0, heard) && s.connected && (forall r :: r in replies ==> r in heard)
    ensures Inv(RepliedAll(s, replies), t, 0, heard) && RepliedAll(s, replies).connected
    decreases |replies|
  {
    if replies != [] {
      ReplyKeeps(s, replies[0], t, heard);
      RepliesKeep(Replied(s, replies[0]), replies[1..], t, heard);
    }
  }

  lemma {:induction false} FailuresKeep(s: State, entries: seq<Entry>, t: nat, heard: set<Reply>)
    requires Inv(s, t, Waiting(entries, t), heard) && !s.connected
    ensures Inv(FailedEach(s, entries), t, 0, heard) && !FailedEach(s, entries).connected
    decreases |entries|
  {
    if entries != [] {
      ResolveKeeps(s, entries[0].call, Failure(entries[0].ticket), t, Waiting(entries[1..], t), heard);
      FailuresKeep(Resolve(s, entries[0].call, Failure(entries[0].ticket)), entries[1..], t, heard);
    }
  }

  lemma DropKeeps(s: State, t: nat, heard: set<Reply>)
    requires Inv(s, t, 0, heard)
    ensures Inv(Dropped(s), t, 0, heard) && !Dropped(s).connected
  {
    FailuresKeep(s.(connected := false, pending := []), s.pending, t, heard);
  }

  lemma PollKeeps(s: State, replies: seq<Reply>, dropped: bool, t: nat, heard: set<Reply>)
    requires Inv(s, t, 0, heard) && (s.connected && !dropped ==> forall r :: r in replies ==> r in heard)
    ensures Inv(Polled(s, replies, dropped), t, 0, heard)
    ensures Polled(s, replies, dropped).connected == (s.connected && !dropped)
  {
    if s.connected && dropped {
      DropKeeps(s, t, heard);
    } else if s.connected {
      RepliesKeep(s, replies, t, heard);
    }
  }

  // ---------------------------------------------------------------- every run

  datatype Event = Connect | Make(call: Call) | Poll(replies: seq<Reply>, dropped: bool)

  function Next(s: State, e: Event): State {
    match e
    case Connect => s.(connected := true)
    case Make(c) => Issue(s, c)
    case Poll(replies, dropped) => Polled(s, replies, dropped)
  }

  function After(s: State, events: seq<Event>): State
    decreases |events|
  {
    if events == [] then s else After(Next(s, events[0]), events[1..])
  }

  /** The replies a run brings to a connected client. */
  ghost function Heard(s: State, events: seq<Event>): set<Reply>
    decreases |events|
  {
    if events == [] then {}
    else
      var e := events[0];
      (if s.connected && e.Poll? && !e.dropped then set r | r in e.replies else {}) + Heard(Next(s, e), events[1..])
  }

  lemma {:induction false} RunKeeps(s: State, events: seq<Event>, t: nat, heard: set<Reply>)
    requires Inv(s, t, 0, heard) && Heard(s, events) <= heard
    ensures Inv(After(s, events), t, 0, heard)
    decreases |events|
  {
    if events != [] {
      match events[0] {
        case Connect =>
        case Make(c) => IssueKeeps(s, c, t, 0, heard);
        case Poll(replies, dropped) => PollKeeps(s, replies, dropped, t, heard);
      }
      RunKeeps(Next(s, events[0]), events[1..], t, heard);
    }
  }

  ghost function Start(): State { State(false, [], 1, 0, map[], []) }

  lemma RunsKeep(events: seq<Event>, t: nat)
    ensures Inv(After(Start(), events), t, 0, Heard(Start(), events))
  {
    RunKeeps(Start(), events, t, Heard(Start(), events));
  }

  /** On every run each call made is waiting or its callback has run once, never both;
      no other callback runs. */
  lemma ExactlyOnce(events: seq<Event>, t: nat)
    ensures var s := After(Start(), events); Waiting(s.pending, t) + Ran(s.log, t) == One(t < s.issued)
  {
    RunsKeep(events, t);
  }

  /** What was heard came with some poll of a connected client. */
  lemma {:induction false} HeardInPoll(s: State, events: seq<Event>, reply: Reply) returns (j: nat)
    requires reply in Heard(s, events)
    ensures j < |events| && events[j].Poll? && !events[j].dropped && reply in events[j].replies
    ensures After(s, events[..j]).connected
    decreases |events|
  {
    var e := events[0];
    if s.connected && e.Poll? && !e.dropped && reply in e.replies {
      j := 0;
    } else {
      j := HeardInPoll(Next(s, e), events[1..], reply);
      j := j + 1;
      assert events[..j][1..] == events[1..][..j - 1];
    }
  }

  /** Every result comes from a complete reply that a poll of the run brought, of the type
      that answers the call, under the id that call, and no other, was sent with. */
  lemma OwnReply(events: seq<Event>, s: State, k: nat) returns (j: nat)
    requires s == After(Start(), events) && k < |s.log| && s.log[k].Result?
    ensures j < |events| && events[j].Poll? && !events[j].dropped && s.log[k].reply in events[j].replies
    ensures var reply := s.log[k].reply;
            && reply.complete && reply.id.Some? && reply.id.value in s.requests
            && s.requests[reply.id.value].ticket == s.log[k].ticket
            && reply.kind == Answer(s.requests[reply.id.value].call.request)
            && forall id :: id in s.requests && s.requests[id].ticket == s.log[k].ticket ==> id == reply.id.value
  {
    RunsKeep(events, 0);
    j := HeardInPoll(Start(), events, s.log[k].reply);
  }

  lemma {:induction false} FindFinds(pending: seq<Entry>, k: nat)
    requires k < |pending| && forall i, j :: 0 <= i < j < |pending| ==> pending[i].id < pending[j].id
    ensures Find(pending, pending[k].id) == k
    decreases k
  {
    if k > 0 { FindFinds(pending[1..], k - 1); }
  }

  lemma {:induction false} LogGrows(s: State, cs: seq<Call>)
    ensures s.log <= IssueAll(s, cs).log
    decreases cs
  {
    if cs != [] {
      IssueLogGrows(s, cs[0]);
      LogGrows(Issue(s, cs[0]), cs[1..]);
    }
  }

  lemma {:induction false} IssueLogGrows(s: State, c: Call)
    ensures s.log <= Issue(s, c).log
    decreases c, 1
  {
    if !s.connected {
      LogGrows(s.(issued := s.issued + 1, log := s.log + [Failure(s.issued)]), c.onFailure);
    }
  }

  /** What a connected client issues waits behind what was waiting, each call under its own
      id, in the order issued, and no callback runs. */
  lemma {:induction false} IssuedInOrder(s: State, cs: seq<Call>)
    requires s.connected
    ensures var t := IssueAll(s, cs);
            && t.log == s.log && s.pending <= t.pending && |t.pending| == |s.pending| + |cs|
            && forall i :: 0 <= i < |cs| ==> t.pending[|s.pending| + i] == Entry(s.nextId + i, s.issued + i, cs[i])
    decreases cs
  {
    if cs != [] {
      var next := Issue(s, cs[0]);
      IssuedInOrder(next, cs[1..]);
      var t := IssueAll(s, cs);
      forall i | 0 <= i < |cs| ensures t.pending[|s.pending| + i] == Entry(s.nextId + i, s.issued + i, cs[i]) {
        if i == 0 {
          assert t.pending[|s.pending|] == next.pending[|s.pending|];
        } else {
          assert t.pending[|next.pending| + (i - 1)] == Entry(next.nextId + (i - 1), next.issued + (i - 1), cs[1..][i - 1]);
        }
      }
    }
  }

  /** How many calls come of these when each fails at once. */
  ghost function Failing(cs: seq<Call>): nat
    decreases cs
  {
    if cs == [] then 0 else 1 + Failing(cs[0].onFailure) + Failing(cs[1..])
  }

  lemma FailsAtOnce(s: State, c: Call, failed: State)
    requires !s.connected && failed == s.(issued := s.issued + 1, log := s.log + [Failure(s.issued)])
    ensures Issue(s, c) == IssueAll(failed, c.onFailure)
  {
  }

  lemma {:induction false} AllFail(s: State, cs: seq<Call>)
    requires !s.connected
    ensures var t := IssueAll(s, cs);
            && !t.connected && t.pending == s.pending
            && t.issued == s.issued + Failing(cs) && |t.log| == |s.log| + Failing(cs)
    decreases cs
  {
    if cs != [] {
      var failed := s.(issued := s.issued + 1, log := s.log + [Failure(s.issued)]);
      AllFail(failed, cs[0].onFailure);
      FailsAtOnce(s, cs[0], failed);
      AllFail(Issue(s, cs[0]), cs[1..]);
    }
  }

  /** A call made with a connection waits under an id that no call had before ... */
  lemma CallWaits(events: seq<Event>, s: State, c: Call)
    requires s == After(Start(), events) && s.connected
    ensures var t := Issue(s, c);
            && |t.pending| == |s.pending| + 1 && t.pending[..|s.pending|] == s.pending && t.log == s.log
            && (var e := t.pending[|s.pending|];
                && e.call == c && e.ticket == s.issued && t.issued == s.issued + 1
                && e.id !in s.requests && t.requests == s.requests[e.id := e])
  {
    RunsKeep(events, 0);
  }

  lemma NothingWaits(events: seq<Event>, s: State)
    requires s == After(Start(), events) && !s.connected
    ensures s.pending == []
  {
    RunsKeep(events, 0);
  }

  /** ... and without one fails at once, as do all the calls its callback makes. */
  lemma CallFails(events: seq<Event>, s: State, c: Call)
    requires s == After(Start(), events) && !s.connected
    ensures var t := Issue(s, c);
            && s.log + [Failure(s.issued)] <= t.log && |t.log| == |s.log| + 1 + Failing(c.onFailure)
            && t.issued == s.issued + 1 + Failing(c.onFailure) && t.pending == []
  {
    NothingWaits(events, s);
    var failed := s.(issued := s.issued + 1, log := s.log + [Failure(s.issued)]);
    FailsAtOnce(s, c, failed);
    AllFail(failed, c.onFailure);
    LogGrows(failed, c.onFailure);
  }

  /** And the other way round: a reply under the id of a call that waits takes that call
      out and runs its callback next, with its result if the reply is complete and of the
      right type. The calls that the callback makes then wait behind the others. */
  lemma ReplyReachesItsCall(events: seq<Event>, s: State, k: nat, reply: Reply)
    requires s == After(Start(), events) && k < |s.pending| && reply.id == Some(s.pending[k].id)
    ensures var e := s.pending[k]; var ok := reply.complete && reply.kind == Answer(e.call.request);
            var goesOn := if ok then e.call.onResult else e.call.onFailure;
            var left := s.pending[..k] + s.pending[k + 1..]; var t := Replied(s, reply);
            && t.log == s.log + [if ok then Result(e.ticket, reply) else Failure(e.ticket)]
            && left <= t.pending && |t.pending| == |left| + |goesOn|
            && forall i :: 0 <= i < |goesOn| ==> t.pending[|left| + i].call == goesOn[i]
  {
    RunsKeep(events, 0);
    FindFinds(s.pending, k);
    var e := s.pending[k];
    var r := Outcome(e, reply);
    IssuedInOrder(s.(pending := Without(s.pending, k), log := s.log + [r]),
                  if r.Result? then e.call.onResult else e.call.onFailure);
  }

  // ------------------------------------------------------- a poll, as a whole

  lemma OthersWait(s: State, reply: Reply, e: Entry)
    requires s.connected && e in s.pending && reply.id != Some(e.id)
    ensures e in Replied(s, reply).pending
  {
    if reply.id.Some? && Find(s.pending, reply.id.value) < |s.pending| {
      var k := Find(s.pending, reply.id.value);
      var left := Without(s.pending, k);
      assert s.pending == s.pending[..k] + [s.pending[k]] + s.pending[k + 1..];
      assert e in left;
      var r := Outcome(s.pending[k], reply);
      IssuedInOrder(s.(pending := left, log := s.log + [r]),
                  if r.Result? then s.pending[k].call.onResult else s.pending[k].call.onFailure);
    }
  }

  /** The callback that a reply runs, said once more of the entry instead of its place. */
  lemma ReplyRuns(s: State, reply: Reply, e: Entry, heard: set<Reply>) returns (r: Resolution)
    requires IdsMatch(s, heard) && s.connected && e in s.pending && reply.id == Some(e.id)
    ensures r == if reply.complete && reply.kind == Answer(e.call.request) then Result(e.ticket, reply) else Failure(e.ticket)
    ensures Replied(s, reply).log == s.log + [r]
  {
    var k :| 0 <= k < |s.pending| && s.pending[k] == e;
    FindFinds(s.pending, k);
    r := Outcome(e, reply);
    IssuedInOrder(s.(pending := Without(s.pending, k), log := s.log + [r]),
                  if r.Result? then e.call.onResult else e.call.onFailure);
  }

  lemma ReplyLogGrows(s: State, reply: Reply)
    requires s.connected
    ensures s.log <= Replied(s, reply).log
  {
    if reply.id.Some? && Find(s.pending, reply.id.value) < |s.pending| {
      var k := Find(s.pending, reply.id.value);
      var r := Outcome(s.pending[k], reply);
      LogGrows(s.(pending := Without(s.pending, k), log := s.log + [r]),
               if r.Result? then s.pending[k].call.onResult else s.pending[k].call.onFailure);
    }
  }

  lemma {:induction false} RepliesLogGrows(s: State, replies: seq<Reply>, heard: set<Reply>)
    requires Inv(s, 0, 0, heard) && s.connected && (forall r :: r in replies ==> r in heard)
    ensures s.log <= RepliedAll(s, replies).log
    decreases |replies|
  {
    if replies != [] {
      ReplyLogGrows(s, replies[0]);
      ReplyKeeps(s, replies[0], 0, heard);
      RepliesLogGrows(Replied(s, replies[0]), replies[1..], heard);
    }
  }

  lemma {:induction false} RepliesRun(s: State, replies: seq<Reply>, e: Entry, j: nat, heard: set<Reply>) returns (r: Resolution)
    requires Inv(s, 0, 0, heard) && s.connected && (forall r :: r in replies ==> r in heard)
    requires e in s.pending && j < |replies| && replies[j].id == Some(e.id)
    requires forall i :: 0 <= i < j ==> replies[i].id != Some(e.id)
    ensures r == if replies[j].complete && replies[j].kind == Answer(e.call.request) then Result(e.ticket, replies[j])
                 else Failure(e.ticket)
    ensures r in RepliedAll(s, replies).log
    decreases |replies|
  {
    var next := Replied(s, replies[0]);
    ReplyKeeps(s, replies[0], 0, heard);
    if j == 0 {
      r := ReplyRuns(s, replies[0], e, heard);
      assert next.log[|s.log|] == r;
      RepliesLogGrows(next, replies[1..], heard);
    } else {
      OthersWait(s, replies[0], e);
      r := RepliesRun(next, replies[1..], e, j - 1, heard);
    }
  }

  lemma {:induction false} RepliesLeave(s: State, replies: seq<Reply>, e: Entry, heard: set<Reply>)
    requires Inv(s, 0, 0, heard) && s.connected && (forall r :: r in replies ==> r in heard)
    requires e in s.pending && forall i :: 0 <= i < |replies| ==> replies[i].id != Some(e.id)
    ensures e in RepliedAll(s, replies).pending
    decreases |replies|
  {
    if replies != [] {
      ReplyKeeps(s, replies[0], 0, heard);
      OthersWait(s, replies[0], e);
      RepliesLeave(Replied(s, replies[0]), replies[1..], e, heard);
    }
  }

  lemma {:induction false} InLog(log: seq<Resolution>, r: Resolution)
    requires r in log
    ensures Ran(log, r.ticket) >= 1
    decreases |log|
  {
    if log[|log| - 1] != r { InLog(log[..|log| - 1], r); }
  }

  lemma {:induction false} InPending(pending: seq<Entry>, e: Entry)
    requires e in pending
    ensures Waiting(pending, e.ticket) >= 1
    decreases |pending|
  {
    if pending[0] != e { InPending(pending[1..], e); }
  }

  lemma KeptFromStart(events: seq<Event>, s: State, t: nat, heard: set<Reply>)
    requires s == After(Start(), events) && Heard(Start(), events) <= heard
    ensures Inv(s, t, 0, heard)
  {
    RunKeeps(Start(), events, t, heard);
  }

  lemma HeardBy(events: seq<Event>, s: State, replies: seq<Reply>, t: nat) returns (heard: set<Reply>)
    requires s == After(Start(), events)
    ensures Inv(s, 0, 0, heard) && Inv(s, t, 0, heard) && forall r :: r in replies ==> r in heard
  {
    var brought := set r | r in replies;
    heard := Heard(Start(), events) + brought;
    KeptFromStart(events, s, 0, heard);
    KeptFromStart(events, s, t, heard);
  }

  lemma AnsweredOnce(s: State, e: Entry, replies: seq<Reply>, j: nat, heard: set<Reply>)
    requires Inv(s, 0, 0, heard) && Inv(s, e.ticket, 0, heard) && s.connected && (forall r :: r in replies ==> r in heard)
    requires e in s.pending && j < |replies| && replies[j].id == Some(e.id)
    requires forall i :: 0 <= i < j ==> replies[i].id != Some(e.id)
    ensures var after := RepliedAll(s, replies);
            var ok := replies[j].complete && replies[j].kind == Answer(e.call.request);
            && Waiting(after.pending, e.ticket) == 0 && Ran(after.log, e.ticket) == 1
            && (if ok then Result(e.ticket, replies[j]) else Failure(e.ticket)) in after.log
  {
    var r := RepliesRun(s, replies, e, j, heard);
    InLog(RepliedAll(s, replies).log, r);
    RepliesKeep(s, replies, e.ticket, heard);
  }

  lemma LeftWaiting(s: State, e: Entry, replies: seq<Reply>, heard: set<Reply>)
    requires Inv(s, 0, 0, heard) && Inv(s, e.ticket, 0, heard) && s.connected && (forall r :: r in replies ==> r in heard)
    requires e in s.pending && forall i :: 0 <= i < |replies| ==> replies[i].id != Some(e.id)
    ensures var after := RepliedAll(s, replies); e in after.pending && Ran(after.log, e.ticket) == 0
  {
    RepliesLeave(s, replies, e, heard);
    InPending(RepliedAll(s, replies).pending, e);
    RepliesKeep(s, replies, e.ticket, heard);
  }

  /** What a poll must do: a call that waits, and whose id one of the replies carries, waits
      no longer. Its callback has run, once, as the first such reply says. */
  lemma PollAnswers(events: seq<Event>, s: State, k: nat, replies: seq<Reply>, j: nat)
    requires s == After(Start(), events) && s.connected && k < |s.pending|
    requires j < |replies| && replies[j].id == Some(s.pending[k].id)
    requires forall i :: 0 <= i < j ==> replies[i].id != Some(s.pending[k].id)
    ensures var t := s.pending[k].ticket; var after := Polled(s, replies, false);
            var ok := replies[j].complete && replies[j].kind == Answer(s.pending[k].call.request);
            && Waiting(after.pending, t) == 0 && Ran(after.log, t) == 1
            && (if ok then Result(t, replies[j]) else Failure(t)) in after.log
  {
    var heard := HeardBy(events, s, replies, s.pending[k].ticket);
    AnsweredOnce(s, s.pending[k], replies, j, heard);
  }

  /** ... and nothing else: a call whose id none of them carries waits on, its callback not run. */
  lemma PollLeavesOthers(events: seq<Event>, s: State, k: nat, replies: seq<Reply>)
    requires s == After(Start(), events) && s.connected && k < |s.pending|
    requires forall i :: 0 <= i < |replies| ==> replies[i].id != Some(s.pending[k].id)
    ensures var after := Polled(s, replies, false);
            s.pending[k] in after.pending && Ran(after.log, s.pending[k].ticket) == 0
  {
    var heard := HeardBy(events, s, replies, s.pending[k].ticket);
    LeftWaiting(s, s.pending[k], replies, heard);
  }

  lemma {:induction false} FailuresLogGrows(s: State, entries: seq<Entry>)
    ensures s.log <= FailedEach(s, entries).log
    decreases |entries|
  {
    if entries != [] {
      var failed := s.(log := s.log + [Failure(entries[0].ticket)]);
      LogGrows(failed, entries[0].call.onFailure);
      FailuresLogGrows(Resolve(s, entries[0].call, Failure(entries[0].ticket)), entries[1..]);
    }
  }

  lemma {:induction false} EachFails(s: State, entries: seq<Entry>, k: nat)
    requires k < |entries|
    ensures Failure(entries[k].ticket) in FailedEach(s, entries).log
    decreases |entries|
  {
    var next := Resolve(s, entries[0].call, Failure(entries[0].ticket));
    if k > 0 {
      EachFails(next, entries[1..], k - 1);
    } else {
      LogGrows(s.(log := s.log + [Failure(entries[0].ticket)]), entries[0].call.onFailure);
      assert next.log[|s.log|] == Failure(entries[0].ticket);
      FailuresLogGrows(next, entries[1..]);
    }
  }

  /** A poll that loses the connection fails every call that waits. */
  lemma PollFailsAll(s: State, k: nat, replies: seq<Reply>)
    requires s.connected && k < |s.pending|
    ensures Failure(s.pending[k].ticket) in Polled(s, replies, true).log
  {
    EachFails(s.(connected := false, pending := []), s.pending, k);
  }

  /** Once a poll has returned false nothing is waiting: every call made has had its
      callback run, also those that the callbacks made. */
  lemma NothingLeftWaiting(events: seq<Event>, replies: seq<Reply>, dropped: bool, t: nat)
    requires dropped || !After(Start(), events).connected
    ensures var s := Polled(After(Start(), events), replies, dropped);
            s.pending == [] && Ran(s.log, t) == One(t < s.issued)
  {
    RunsKeep(events, t);
    PollKeeps(After(Start(), events), replies, dropped, t, Heard(Start(), events));
  }
}
