/** The desktop bridge of the agent: a session asks for a frame or an input, the logged-in
    desktop client fetches jobs and posts replies. Requests, fetches and replies are handlers
    that run concurrently; `Step` is one atomic action of one of them. */
module Desktop {
  import opened Prelude

  type Id = int       // job id, a fresh token
  type Handler = int  // one fetch or one reply being served
  type Body = int     // contents of a reply

  const QUEUE := 32

  datatype Reply = Reply(id: Id, body: Body)

  /** What a request returns to the session. */
  datatype Answer = Answered(reply: Reply) | Unavailable | TimedOut

  datatype Request =
    | Registered              // entry and channel made, job not yet queued
    | Waiting                 // job queued, waiting for the reply or the timeout
    | Leaving(answer: Answer) // about to delete its entry
    | Returned(answer: Answer)

  datatype Fetch = Polling | Checking(job: Id) | Fetched(job: Id) | Nothing

  datatype Posting =
    | Looking(reply: Reply)                    // before it looks the channel up
    | Sending(reply: Reply, found: Option<Id>) // holding the channel it found, if any
    | Posted

  datatype Place = Queued | Held(holder: Handler) | Handed | Dropped

  datatype State = State(
    queue: seq<Id>,
    pending: map<Id, Id>,                  // the channel of each pending id; channels are named by their request
    channels: map<Id, Option<Reply>>,      // each holds at most one reply
    requests: map<Id, Request>,
    fetches: map<Handler, Fetch>,
    postings: map<Handler, Posting>,
    place: map<Id, Place>,                 // where each job that was ever queued is (not in the code)
    handed: seq<Id>,                       // jobs handed to the client, in order
    posted: set<Reply>)                    // replies the client has sent so far

  datatype Event =
    | Begin(id: Id)
    | Enqueue(id: Id)
    | Take(id: Id)              // the request takes its reply out of its channel
    | Timeout(id: Id)           // eight seconds are over, or the session is
    | Unregister(id: Id)
    | Poll(h: Handler)
    | Dequeue(h: Handler)
    | Check(h: Handler)         // is the job still pending?
    | PollEnds(h: Handler)
    | Post(h: Handler, reply: Reply)
    | LookUp(h: Handler)
    | Send(h: Handler)

  const INITIAL := State([], map[], map[], map[], map[], map[], map[], [], {})

  function At(s: State, id: Id, r: Request): State { s.(requests := s.requests[id := r]) }

  function RequestStep(s: State, e: Event): State {
    match e
    case Begin(id) =>
      if id in s.requests then s
      else At(s, id, Registered).(pending := s.pending[id := id], channels := s.channels[id := None])
    case Enqueue(id) =>
      if id in s.requests && s.requests[id].Registered? && |s.queue| < QUEUE then
        At(s, id, Waiting).(queue := s.queue + [id], place := s.place[id := Queued])
      else s
    case Take(id) =>
      if id in s.requests && s.requests[id].Waiting? && id in s.channels && s.channels[id].Some? then
        At(s, id, Leaving(Answered(s.channels[id].value))).(channels := s.channels[id := None])
      else s
    case Timeout(id) =>
      if id in s.requests && s.requests[id].Registered? then At(s, id, Leaving(Unavailable))
      else if id in s.requests && s.requests[id].Waiting? then At(s, id, Leaving(TimedOut))
      else s
    case Unregister(id) =>
      if id in s.requests && s.requests[id].Leaving? then
        At(s, id, Returned(s.requests[id].answer)).(pending := s.pending - {id})
      else s
    case _ => s
  }

  function FetchStep(s: State, h: Handler, e: Event): State {
    match e
    case Poll(_) => if h in s.fetches then s else s.(fetches := s.fetches[h := Polling])
    case Dequeue(_) =>
      if h in s.fetches && s.fetches[h].Polling? && s.queue != [] then
        s.(fetches := s.fetches[h := Checking(s.queue[0])], queue := s.queue[1..],
           place := s.place[s.queue[0] := Held(h)])
      else s
    case Check(_) =>
      if h in s.fetches && s.fetches[h].Checking? then
        var job := s.fetches[h].job;
        if job in s.pending then
          s.(fetches := s.fetches[h := Fetched(job)], handed := s.handed + [job], place := s.place[job := Handed])
        else s.(fetches := s.fetches[h := Polling], place := s.place[job := Dropped])
      else s
    case PollEnds(_) =>
      if h in s.fetches && s.fetches[h].Polling? then s.(fetches := s.fetches[h := Nothing]) else s
    case _ => s
  }

  /** A reply goes into the channel if that is empty, and is dropped otherwise. */
  function Deliver(s: State, found: Option<Id>, reply: Reply): State {
    if found.Some? && found.value in s.channels && s.channels[found.value].None? then
      s.(channels := s.channels[found.value := Some(reply)])
    else s
  }

  function PostStep(s: State, h: Handler, e: Event): State {
    match e
    case Post(_, reply) =>
      if h in s.postings then s
      else s.(postings := s.postings[h := Looking(reply)], posted := s.posted + {reply})
    case LookUp(_) =>
      if h in s.postings && s.postings[h].Looking? then
        var reply := s.postings[h].reply;
        var found := if reply.id in s.pending then Some(s.pending[reply.id]) else None;
        s.(postings := s.postings[h := Sending(reply, found)])
      else s
    case Send(_) =>
      if h in s.postings && s.postings[h].Sending? then
        Deliver(s, s.postings[h].found, s.postings[h].reply).(postings := s.postings[h := Posted])
      else s
    case _ => s
  }

  predicate OfRequest(e: Event) { e.Begin? || e.Enqueue? || e.Take? || e.Timeout? || e.Unregister? }
  predicate OfFetch(e: Event) { e.Poll? || e.Dequeue? || e.Check? || e.PollEnds? }

  function Step(s: State, e: Event): State {
    if OfRequest(e) then RequestStep(s, e)
    else if OfFetch(e) then FetchStep(s, e.h, e)
    else PostStep(s, e.h, e)
  }

  function ExecFrom(s: State, events: seq<Event>): State
    decreases |events|
  {
    if events == [] then s else ExecFrom(Step(s, events[0]), events[1..])
  }

  function Exec(events: seq<Event>): State { ExecFrom(INITIAL, events) }

  // ---- what every interleaving keeps ----

  /** id's request has not returned yet. */
  ghost predicate InProgress(s: State, id: Id) { id in s.requests && !s.requests[id].Returned? }

  ghost predicate AnswerOk(s: State, id: Id, a: Answer) {
    a.Answered? ==> a.reply.id == id && a.reply in s.posted
  }

  ghost predicate RequestOk(s: State, id: Id) {
    && (id in s.pending <==> InProgress(s, id))
    && (id in s.pending ==> s.pending[id] == id)
    && (id in s.channels <==> id in s.requests)
    && (id in s.channels && s.channels[id].Some? ==> s.channels[id].value.id == id && s.channels[id].value in s.posted)
    && (id in s.requests && (s.requests[id].Leaving? || s.requests[id].Returned?) ==>
         AnswerOk(s, id, s.requests[id].answer))
  }

  ghost predicate PostOk(s: State, h: Handler) {
    h in s.postings ==>
      && (s.postings[h].Looking? || s.postings[h].Sending? ==> s.postings[h].reply in s.posted)
      && (s.postings[h].Sending? && s.postings[h].found.Some? ==>
           s.postings[h].found.value == s.postings[h].reply.id && s.postings[h].found.value in s.requests)
  }

  ghost predicate NoRepeats(ids: seq<Id>) { forall i, j :: 0 <= i < j < |ids| ==> ids[i] != ids[j] }

  /** A job is in one place at a time. */
  ghost predicate JobOk(s: State, id: Id) {
    && (id in s.place ==> id in s.requests && !s.requests[id].Registered?)
    && (id in s.queue <==> id in s.place && s.place[id].Queued?)
    && (id in s.handed <==> id in s.place && s.place[id].Handed?)
  }

  ghost predicate FetchOk(s: State, h: Handler) {
    h in s.fetches && s.fetches[h].Checking? ==> s.fetches[h].job in s.place && s.place[s.fetches[h].job] == Held(h)
  }

  ghost predicate Inv(s: State) {
    && (forall id: Id :: RequestOk(s, id))
    && (forall id: Id :: JobOk(s, id))
    && (forall h: Handler :: PostOk(s, h) && FetchOk(s, h))
    && NoRepeats(s.queue) && NoRepeats(s.handed)
    && |s.queue| <= QUEUE
  }

  ghost predicate SameRequest(s: State, t: State, id: Id) {
    && (id in t.requests <==> id in s.requests) && (id in s.requests ==> t.requests[id] == s.requests[id])
    && (id in t.pending <==> id in s.pending) && (id in s.pending ==> t.pending[id] == s.pending[id])
    && (id in t.channels <==> id in s.channels) && (id in s.channels ==> t.channels[id] == s.channels[id])
    && t.posted == s.posted
  }

  lemma OtherQueues(s: State, other: Id, id: Id)
    requires other != id
    ensures SameRequest(s, RequestStep(s, Enqueue(other)), id)
  {
  }

  lemma OtherGivesUp(s: State, other: Id, id: Id)
    requires other != id
    ensures SameRequest(s, RequestStep(s, Timeout(other)), id)
  {
  }

  lemma OtherRequest(s: State, e: Event, id: Id)
    requires OfRequest(e) && e.id != id
    ensures SameRequest(s, RequestStep(s, e), id)
  {
    if e.Enqueue? { OtherQueues(s, e.id, id); }
    else if e.Timeout? { OtherGivesUp(s, e.id, id); }
  }

  lemma OwnRequest(s: State, e: Event)
    requires OfRequest(e) && RequestOk(s, e.id)
    ensures RequestOk(Step(s, e), e.id)
  {
  }

  lemma RequestsKeep(s: State, e: Event, id: Id)
    requires OfRequest(e) && RequestOk(s, id)
    ensures RequestOk(Step(s, e), id)
  {
    if e.id == id { OwnRequest(s, e); } else { OtherRequest(s, e, id); }
  }

  lemma RequestJobs(s: State, e: Event, id: Id)
    requires OfRequest(e) && JobOk(s, id)
    ensures JobOk(Step(s, e), id)
  {
  }

  lemma RequestLists(s: State, e: Event)
    requires OfRequest(e) && NoRepeats(s.queue) && |s.queue| <= QUEUE && JobOk(s, e.id)
    ensures NoRepeats(Step(s, e).queue) && Step(s, e).handed == s.handed && |Step(s, e).queue| <= QUEUE
  {
  }

  lemma RequestFetches(s: State, e: Event, h: Handler)
    requires OfRequest(e) && FetchOk(s, h) && JobOk(s, e.id)
    ensures FetchOk(Step(s, e), h)
  {
  }

  lemma DequeueKeeps(s: State, h: Handler, id: Id, g: Handler)
    requires JobOk(s, id) && FetchOk(s, g) && NoRepeats(s.queue)
    requires s.queue != [] ==> JobOk(s, s.queue[0])
    ensures var t := Step(s, Dequeue(h)); JobOk(t, id) && FetchOk(t, g) && NoRepeats(t.queue) && t.handed == s.handed
  {
    var t := Step(s, Dequeue(h));
    if t != s { assert s.queue == [s.queue[0]] + t.queue; }
  }

  lemma CheckKeeps(s: State, h: Handler, id: Id, g: Handler)
    requires JobOk(s, id) && FetchOk(s, g) && FetchOk(s, h) && NoRepeats(s.handed)
    requires h in s.fetches && s.fetches[h].Checking? ==> JobOk(s, s.fetches[h].job)
    ensures var t := Step(s, Check(h)); JobOk(t, id) && FetchOk(t, g) && NoRepeats(t.handed) && t.queue == s.queue
  {
  }

  lemma FetchKeeps(s: State, e: Event, id: Id, h: Handler)
    requires Inv(s) && OfFetch(e)
    ensures var t := Step(s, e);
      JobOk(t, id) && FetchOk(t, h) && NoRepeats(t.queue) && NoRepeats(t.handed) && |t.queue| <= QUEUE
  {
    assert JobOk(s, id) && FetchOk(s, h) && FetchOk(s, e.h);
    if e.Dequeue? {
      if s.queue != [] { assert JobOk(s, s.queue[0]); }
      DequeueKeeps(s, e.h, id, h);
    } else if e.Check? {
      if e.h in s.fetches && s.fetches[e.h].Checking? { assert JobOk(s, s.fetches[e.h].job); }
      CheckKeeps(s, e.h, id, h);
    }
  }

  lemma FetchesLeave(s: State, e: Event)
    requires OfFetch(e)
    ensures var t := FetchStep(s, e.h, e);
      && t.postings == s.postings && t.posted == s.posted
      && t.requests == s.requests && t.pending == s.pending && t.channels == s.channels
  {
  }

  lemma PostKeeps(s: State, g: Handler, e: Event, h: Handler)
    requires PostOk(s, h) && !OfRequest(e) && !OfFetch(e)
    requires g in s.postings && s.postings[g].Looking? ==> RequestOk(s, s.postings[g].reply.id)
    ensures PostOk(PostStep(s, g, e), h)
  {
  }

  lemma PostsKeep(s: State, e: Event, h: Handler)
    requires PostOk(s, h)
    requires forall id: Id :: RequestOk(s, id)
    ensures PostOk(Step(s, e), h)
  {
    if OfFetch(e) {
      FetchesLeave(s, e);
    } else if !OfRequest(e) {
      if e.h in s.postings && s.postings[e.h].Looking? { assert RequestOk(s, s.postings[e.h].reply.id); }
      PostKeeps(s, e.h, e, h);
    }
  }

  lemma PostRequests(s: State, e: Event, id: Id)
    requires !OfRequest(e) && RequestOk(s, id)
    requires !OfFetch(e) ==> PostOk(s, e.h)
    ensures RequestOk(Step(s, e), id)
  {
    if OfFetch(e) { FetchesLeave(s, e); } else { PostSteps(s, e.h, e, id); }
  }

  lemma PostSteps(s: State, h: Handler, e: Event, id: Id)
    requires RequestOk(s, id) && PostOk(s, h)
    ensures RequestOk(PostStep(s, h, e), id)
  {
  }

  lemma RequestKeeps(s: State, e: Event)
    requires Inv(s) && OfRequest(e)
    ensures Inv(Step(s, e))
  {
    var t := Step(s, e);
    assert JobOk(s, e.id);
    RequestLists(s, e);
    forall id: Id ensures RequestOk(t, id) && JobOk(t, id) {
      assert RequestOk(s, id) && JobOk(s, id);
      RequestsKeep(s, e, id);
      RequestJobs(s, e, id);
    }
    forall h: Handler ensures PostOk(t, h) && FetchOk(t, h) {
      assert PostOk(s, h) && FetchOk(s, h);
      PostsKeep(s, e, h);
      RequestFetches(s, e, h);
    }
  }

  lemma StepKeeps(s: State, e: Event)
    requires Inv(s)
    ensures Inv(Step(s, e))
  {
    if OfRequest(e) { RequestKeeps(s, e); return; }
    var t := Step(s, e);
    assert PostOk(s, e.h);
    if OfFetch(e) { FetchKeeps(s, e, 0, e.h); }
    forall id: Id ensures RequestOk(t, id) && JobOk(t, id) {
      assert RequestOk(s, id) && JobOk(s, id);
      PostRequests(s, e, id);
      if OfFetch(e) { FetchKeeps(s, e, id, e.h); }
    }
    forall h: Handler ensures PostOk(t, h) && FetchOk(t, h) {
      assert PostOk(s, h) && FetchOk(s, h);
      PostsKeep(s, e, h);
      if OfFetch(e) { FetchKeeps(s, e, 0, h); }
    }
  }

  lemma {:induction false} RunKeeps(s: State, events: seq<Event>)
    requires Inv(s)
    ensures Inv(ExecFrom(s, events))
    decreases |events|
  {
    if events != [] {
      StepKeeps(s, events[0]);
      RunKeeps(Step(s, events[0]), events[1..]);
    }
  }

  // ---- every run ----

  lemma InitialInv()
    ensures Inv(INITIAL)
  {
  }

  lemma ExecKeeps(events: seq<Event>)
    ensures Inv(Exec(events))
  {
    InitialInv();
    RunKeeps(INITIAL, events);
  }

  /** A request returns only a reply that carries its own id and that the client posted;
      `pending` holds exactly the requests in progress; every job is handed out at most
      once; at most 32 jobs wait. */
  lemma EveryRunAnswersItsOwn(events: seq<Event>)
    ensures var s := Exec(events);
      && (forall id :: id in s.requests && s.requests[id].Returned? && s.requests[id].answer.Answered? ==>
           s.requests[id].answer.reply.id == id && s.requests[id].answer.reply in s.posted)
      && (forall id :: id in s.pending <==> InProgress(s, id))
      && ((forall id :: id in s.requests ==> s.requests[id].Returned?) ==> s.pending == map[])
      && NoRepeats(s.handed) && |s.queue| <= 32
  {
    ExecKeeps(events);
    var s := Exec(events);
    forall id: Id ensures id in s.pending <==> InProgress(s, id) { assert RequestOk(s, id); }
    if forall id :: id in s.requests ==> s.requests[id].Returned? {
      assert forall id :: id !in s.pending;
    }
    forall id | id in s.requests && s.requests[id].Returned? ensures AnswerOk(s, id, s.requests[id].answer) {
      assert RequestOk(s, id);
    }
  }

  ghost predicate Decided(s: State, id: Id) {
    id in s.requests && (s.requests[id].Leaving? || s.requests[id].Returned?)
  }

  lemma AnswerStays(s: State, e: Event, id: Id)
    requires Decided(s, id)
    ensures Decided(Step(s, e), id) && Step(s, e).requests[id].answer == s.requests[id].answer
  {
    if !OfRequest(e) { OthersLeaveRequests(s, e); }
    else if e.id != id { OtherRequest(s, e, id); }
  }

  lemma OthersLeaveRequests(s: State, e: Event)
    requires !OfRequest(e)
    ensures Step(s, e).requests == s.requests
  {
  }

  /** The answer of a request never changes once it is decided: it takes at most one reply. */
  lemma {:induction false} AnswersAreFinal(s: State, events: seq<Event>, id: Id)
    requires Decided(s, id)
    ensures Decided(ExecFrom(s, events), id) && ExecFrom(s, events).requests[id].answer == s.requests[id].answer
    decreases |events|
  {
    if events != [] {
      AnswerStays(s, events[0], id);
      AnswersAreFinal(Step(s, events[0]), events[1..], id);
    }
  }

  /** A job is handed to the client only while its request is in progress. */
  lemma HandedWhilePending(events: seq<Event>, h: Handler)
    ensures var s := Exec(events);
      var t := Step(s, Check(h));
      t.handed != s.handed ==>
        && h in s.fetches && s.fetches[h].Checking?
        && InProgress(s, s.fetches[h].job) && s.fetches[h].job !in s.handed
        && t.handed == s.handed + [s.fetches[h].job]
  {
    ExecKeeps(events);
    var s := Exec(events);
    if h in s.fetches && s.fetches[h].Checking? {
      assert RequestOk(s, s.fetches[h].job) && JobOk(s, s.fetches[h].job) && FetchOk(s, h);
    }
  }

  /** The two states differ at most in channels from which no request will receive any more. */
  ghost predicate Alike(s: State, t: State) {
    && t == s.(channels := t.channels) && t.channels.Keys == s.channels.Keys
    && forall id :: id in s.channels && !Decided(s, id) ==> t.channels[id] == s.channels[id]
  }

  /** The reply has somewhere to go: it was looked up in time, its request still waits for one,
      and has none yet. */
  ghost predicate Welcome(s: State, found: Option<Id>) {
    && found.Some? && found.value in s.channels && s.channels[found.value].None?
    && !Decided(s, found.value)
  }

  lemma BeginAlike(s: State, t: State, id: Id)
    requires Alike(s, t)
    ensures Alike(RequestStep(s, Begin(id)), RequestStep(t, Begin(id)))
  {
  }

  lemma TakeAlike(s: State, t: State, id: Id)
    requires Alike(s, t)
    ensures Alike(RequestStep(s, Take(id)), RequestStep(t, Take(id)))
  {
    var waits := id in s.requests && s.requests[id].Waiting? && id in s.channels && s.channels[id].Some?;
    assert waits ==> t.channels[id] == s.channels[id];
  }

  lemma EnqueueAlike(s: State, t: State, id: Id)
    requires Alike(s, t)
    ensures Alike(RequestStep(s, Enqueue(id)), RequestStep(t, Enqueue(id)))
  {
  }

  lemma TimeoutAlike(s: State, t: State, id: Id)
    requires Alike(s, t)
    ensures Alike(RequestStep(s, Timeout(id)), RequestStep(t, Timeout(id)))
  {
  }

  lemma UnregisterAlike(s: State, t: State, id: Id)
    requires Alike(s, t)
    ensures Alike(RequestStep(s, Unregister(id)), RequestStep(t, Unregister(id)))
  {
  }

  lemma RequestsAlike(s: State, t: State, e: Event)
    requires Alike(s, t) && OfRequest(e)
    ensures Alike(Step(s, e), Step(t, e))
  {
    if e.Begin? { BeginAlike(s, t, e.id); }
    else if e.Take? { TakeAlike(s, t, e.id); }
    else if e.Enqueue? { EnqueueAlike(s, t, e.id); }
    else if e.Timeout? { TimeoutAlike(s, t, e.id); }
    else { UnregisterAlike(s, t, e.id); }
  }

  /** A fetch does not look at the channels. */
  lemma FetchIgnoresChannels(s: State, h: Handler, e: Event, channels: map<Id, Option<Reply>>)
    ensures FetchStep(s.(channels := channels), h, e) == FetchStep(s, h, e).(channels := channels)
  {
    if e.Dequeue? { DequeueIgnoresChannels(s, h, channels); }
    else if e.Check? { CheckIgnoresChannels(s, h, channels); }
  }

  lemma DequeueIgnoresChannels(s: State, h: Handler, channels: map<Id, Option<Reply>>)
    ensures FetchStep(s.(channels := channels), h, Dequeue(h)) == FetchStep(s, h, Dequeue(h)).(channels := channels)
  {
  }

  lemma CheckIgnoresChannels(s: State, h: Handler, channels: map<Id, Option<Reply>>)
    ensures FetchStep(s.(channels := channels), h, Check(h)) == FetchStep(s, h, Check(h)).(channels := channels)
  {
    var t := s.(channels := channels);
    if h in s.fetches && s.fetches[h].Checking? {
      var job := s.fetches[h].job;
      if job in s.pending {
        assert FetchStep(t, h, Check(h)) == t.(
          fetches := s.fetches[h := Fetched(job)], handed := s.handed + [job], place := s.place[job := Handed]);
      } else {
        assert FetchStep(t, h, Check(h)) == t.(
          fetches := s.fetches[h := Polling], place := s.place[job := Dropped]);
      }
    }
  }

  lemma FetchesAlike(s: State, t: State, e: Event)
    requires Alike(s, t) && OfFetch(e)
    ensures Alike(Step(s, e), Step(t, e))
  {
    FetchIgnoresChannels(s, e.h, e, t.channels);
    FetchesLeave(s, e);
  }

  lemma DeliverAlike(s: State, t: State, found: Option<Id>, reply: Reply)
    requires Alike(s, t)
    ensures Alike(Deliver(s, found, reply), Deliver(t, found, reply))
  {
    var u, v := Deliver(s, found, reply), Deliver(t, found, reply);
    assert u == s.(channels := u.channels) && v == s.(channels := v.channels);
    forall id | id in u.channels && !Decided(s, id) ensures v.channels[id] == u.channels[id] {
      assert t.channels[id] == s.channels[id];
    }
  }

  lemma PostsAlike(s: State, t: State, e: Event)
    requires Alike(s, t) && !OfRequest(e) && !OfFetch(e)
    ensures Alike(Step(s, e), Step(t, e))
  {
    if e.Send? && e.h in s.postings && s.postings[e.h].Sending? {
      DeliverAlike(s, t, s.postings[e.h].found, s.postings[e.h].reply);
    }
  }

  /** What is in those channels is never seen: they make no difference to any later event. */
  lemma {:induction false} AlikeStays(s: State, t: State, events: seq<Event>)
    requires Alike(s, t)
    ensures Alike(ExecFrom(s, events), ExecFrom(t, events))
    decreases |events|
  {
    if events != [] {
      var e := events[0];
      if OfRequest(e) { RequestsAlike(s, t, e); }
      else if OfFetch(e) { FetchesAlike(s, t, e); }
      else { PostsAlike(s, t, e); }
      AlikeStays(Step(s, e), Step(t, e), events[1..]);
    }
  }

  /** Posting a reply never blocks, and it matters if and only if the reply is welcome: one that
      is late, for an unknown id or a duplicate may still end up in a channel, but nothing
      that happens later, in any run, depends on it. */
  lemma UnwelcomeRepliesAreDropped(s: State, h: Handler, events: seq<Event>)
    requires h in s.postings && s.postings[h].Sending?
    ensures var sent, dropped := Step(s, Send(h)), s.(postings := s.postings[h := Posted]);
      && sent.postings[h] == Posted
      && (Alike(dropped, sent) <==> !Welcome(s, s.postings[h].found))
      && (!Welcome(s, s.postings[h].found) ==> Alike(ExecFrom(dropped, events), ExecFrom(sent, events)))
  {
    var sent, dropped := Step(s, Send(h)), s.(postings := s.postings[h := Posted]);
    if !Welcome(s, s.postings[h].found) { AlikeStays(dropped, sent, events); }
  }

  lemma {:induction false} ExecConcat(s: State, f: seq<Event>, g: seq<Event>)
    ensures ExecFrom(s, f + g) == ExecFrom(ExecFrom(s, f), g)
    decreases |f|
  {
    if f == [] {
      assert f + g == g;
    } else {
      assert (f + g)[0] == f[0] && (f + g)[1..] == f[1..] + g;
      ExecConcat(Step(s, f[0]), f[1..], g);
    }
  }

  lemma OneEvent(s: State, e: Event)
    ensures ExecFrom(s, [e]) == Step(s, e)
  {
    assert [e][1..] == [];
    assert ExecFrom(Step(s, e), []) == Step(s, e);
  }

  lemma TimeoutDecides(s: State, id: Id)
    requires id in s.requests
    ensures Decided(Step(s, Timeout(id)), id)
  {
  }

  /** In every run: once the timeout of a request has fired and it has had its turn to delete
      its entry, it has returned and left no entry, whatever the client and all other
      handlers did before and in between. */
  lemma RequestsAlwaysReturn(before: seq<Event>, between: seq<Event>, id: Id)
    requires id in Exec(before).requests
    ensures var s := Exec(before + [Timeout(id)] + between + [Unregister(id)]);
      id in s.requests && s.requests[id].Returned? && id !in s.pending
  {
    var s0 := Exec(before);
    var s1 := Step(s0, Timeout(id));
    var s2 := ExecFrom(s1, between);
    ExecConcat(INITIAL, before, [Timeout(id)]);
    OneEvent(s0, Timeout(id));
    ExecConcat(INITIAL, before + [Timeout(id)], between);
    ExecConcat(INITIAL, before + [Timeout(id)] + between, [Unregister(id)]);
    OneEvent(s2, Unregister(id));
    TimeoutDecides(s0, id);
    AnswersAreFinal(s1, between, id);
    ExecKeeps(before + [Timeout(id)] + between + [Unregister(id)]);
    assert RequestOk(Exec(before + [Timeout(id)] + between + [Unregister(id)]), id);
  }

  // ---- the moves of a request ----

  /** How many moves a request has left, at most. */
  function Rank(r: Request): nat {
    match r
    case Registered => 3
    case Waiting => 2
    case Leaving(_) => 1
    case Returned(_) => 0
  }

  /** The event is a move of this request. */
  ghost predicate Moves(s: State, e: Event, id: Id)
    requires id in s.requests
  {
    id in Step(s, e).requests && Step(s, e).requests[id] != s.requests[id]
  }

  lemma OwnMove(s: State, e: Event)
    requires OfRequest(e) && e.id in s.requests
    ensures var t := RequestStep(s, e);
      && e.id in t.requests
      && (t.requests[e.id] == s.requests[e.id] || Rank(t.requests[e.id]) < Rank(s.requests[e.id]))
  {
  }

  /** Nobody but the request itself moves it, and each move brings it nearer to its return. */
  lemma StepMoves(s: State, e: Event, id: Id)
    requires id in s.requests
    ensures id in Step(s, e).requests
    ensures Moves(s, e, id) ==> OfRequest(e) && e.id == id && Rank(Step(s, e).requests[id]) < Rank(s.requests[id])
  {
    if !OfRequest(e) { OthersLeaveRequests(s, e); }
    else if e.id == id { OwnMove(s, e); }
    else { OtherRequest(s, e, id); }
  }

  /** How often the request moves in a run. */
  ghost function MoveCount(s: State, events: seq<Event>, id: Id): nat
    requires id in s.requests
    decreases |events|
  {
    if events == [] then 0 else
      StepMoves(s, events[0], id);
      (if Moves(s, events[0], id) then 1 else 0) + MoveCount(Step(s, events[0]), events[1..], id)
  }

  lemma {:induction false} MovesAreFew(s: State, events: seq<Event>, id: Id)
    requires id in s.requests
    ensures var t := ExecFrom(s, events);
      id in t.requests && MoveCount(s, events, id) + Rank(t.requests[id]) <= Rank(s.requests[id])
    decreases |events|
  {
    if events != [] {
      StepMoves(s, events[0], id);
      MovesAreFew(Step(s, events[0]), events[1..], id);
    }
  }

  lemma CanMove(s: State, id: Id)
    requires InProgress(s, id)
    ensures Moves(s, Timeout(id), id) || Moves(s, Unregister(id), id)
  {
  }

  /** A request makes at most three moves in any run, and it can always make one until it has
      returned: then its entry is gone, and it never moves again. */
  lemma RequestsComeToAnEnd(before: seq<Event>, after: seq<Event>, id: Id)
    requires id in Exec(before).requests
    ensures MoveCount(Exec(before), after, id) <= 3
    ensures var t := ExecFrom(Exec(before), after);
      && id in t.requests
      && ((forall e :: !Moves(t, e, id)) <==> t.requests[id].Returned?)
      && (t.requests[id].Returned? ==> id !in t.pending)
  {
    var t := ExecFrom(Exec(before), after);
    MovesAreFew(Exec(before), after, id);
    if t.requests[id].Returned? {
      forall e ensures !Moves(t, e, id) { StepMoves(t, e, id); }
      ExecConcat(INITIAL, before, after);
      ExecKeeps(before + after);
      assert RequestOk(t, id);
    } else {
      CanMove(t, id);
    }
  }

  // ---- from the request to its answer ----

  lemma FirstEvent(s: State, e: Event, rest: seq<Event>)
    ensures ExecFrom(s, [e] + rest) == ExecFrom(Step(s, e), rest)
  {
    assert ([e] + rest)[1..] == rest;
  }

  lemma TwoEvents(s: State, e: Event, f: Event)
    ensures ExecFrom(s, [e, f]) == Step(Step(s, e), f)
  {
    OneEvent(Step(s, e), f);
    FirstEvent(s, e, [f]);
    assert [e] + [f] == [e, f];
  }

  lemma ThreeEvents(s: State, e: Event, f: Event, g: Event)
    ensures ExecFrom(s, [e, f, g]) == Step(Step(Step(s, e), f), g)
  {
    TwoEvents(Step(s, e), f, g);
    FirstEvent(s, e, [f, g]);
    assert [e] + [f, g] == [e, f, g];
  }

  /** A new request is queued last if less than 32 jobs wait. */
  lemma RequestIsQueued(s: State, id: Id)
    requires id !in s.requests && |s.queue| < 32
    ensures ExecFrom(s, [Begin(id), Enqueue(id)])
         == s.(requests := s.requests[id := Waiting], pending := s.pending[id := id],
               channels := s.channels[id := None], queue := s.queue + [id], place := s.place[id := Queued])
  {
    TwoEvents(s, Begin(id), Enqueue(id));
    assert Step(s, Begin(id)) == s.(requests := s.requests[id := Registered], pending := s.pending[id := id],
                                    channels := s.channels[id := None]);
    assert s.requests[id := Registered][id := Waiting] == s.requests[id := Waiting];
  }

  /** A fetch hands out the oldest job if its request is still in progress. */
  lemma JobIsHandedOut(s: State, h: Handler, id: Id)
    requires h !in s.fetches && s.queue != [] && s.queue[0] == id && id in s.pending
    ensures ExecFrom(s, [Poll(h), Dequeue(h), Check(h)])
         == s.(fetches := s.fetches[h := Fetched(id)], queue := s.queue[1..], handed := s.handed + [id],
               place := s.place[id := Handed])
  {
    ThreeEvents(s, Poll(h), Dequeue(h), Check(h));
    var t := s.(fetches := s.fetches[h := Polling]);
    assert Step(s, Poll(h)) == t;
    var u := s.(fetches := s.fetches[h := Checking(id)], queue := s.queue[1..], place := s.place[id := Held(h)]);
    assert t.fetches[h := Checking(id)] == u.fetches;
    assert Step(t, Dequeue(h)) == u;
    ChecksOut(u, h, id);
    assert u.place[id := Handed] == s.place[id := Handed];
    assert u.fetches[h := Fetched(id)] == s.fetches[h := Fetched(id)];
  }

  lemma ChecksOut(s: State, h: Handler, id: Id)
    requires h in s.fetches && s.fetches[h] == Checking(id) && id in s.pending
    ensures Step(s, Check(h))
         == s.(fetches := s.fetches[h := Fetched(id)], handed := s.handed + [id], place := s.place[id := Handed])
  {
  }

  /** A fetch that finds no job ends without one; one that has taken a job first decides about it, and
      drops it only if its request is over. */
  lemma FetchEnds(s: State, h: Handler)
    ensures h !in s.fetches ==> ExecFrom(s, [Poll(h), PollEnds(h)]) == s.(fetches := s.fetches[h := Nothing])
    ensures h in s.fetches && s.fetches[h].Checking? ==>
      && Step(s, PollEnds(h)) == s
      && (s.fetches[h].job !in s.pending ==>
           Step(s, Check(h))
           == s.(fetches := s.fetches[h := Polling], place := s.place[s.fetches[h].job := Dropped]))
  {
    TwoEvents(s, Poll(h), PollEnds(h));
    assert s.fetches[h := Polling][h := Nothing] == s.fetches[h := Nothing];
  }

  /** A reply to a request in progress that has none yet is put into its channel. */
  lemma ReplyIsKept(s: State, g: Handler, reply: Reply)
    requires g !in s.postings && reply.id in s.pending && s.pending[reply.id] == reply.id
    requires reply.id in s.channels && s.channels[reply.id].None?
    ensures ExecFrom(s, [Post(g, reply), LookUp(g), Send(g)])
         == s.(postings := s.postings[g := Posted], posted := s.posted + {reply},
               channels := s.channels[reply.id := Some(reply)])
  {
    ThreeEvents(s, Post(g, reply), LookUp(g), Send(g));
    var t := s.(postings := s.postings[g := Looking(reply)], posted := s.posted + {reply});
    assert Step(s, Post(g, reply)) == t;
    var u := t.(postings := s.postings[g := Sending(reply, Some(reply.id))]);
    assert t.postings[g := Sending(reply, Some(reply.id))] == u.postings;
    assert Step(t, LookUp(g)) == u;
    assert u.postings[g := Posted] == s.postings[g := Posted];
  }

  /** The request takes the reply out of its channel and returns it. */
  lemma AnswerIsReturned(s: State, reply: Reply)
    requires reply.id in s.requests && s.requests[reply.id].Waiting?
    requires reply.id in s.channels && s.channels[reply.id] == Some(reply)
    ensures ExecFrom(s, [Take(reply.id), Unregister(reply.id)])
         == s.(requests := s.requests[reply.id := Returned(Answered(reply))],
               channels := s.channels[reply.id := None], pending := s.pending - {reply.id})
  {
    TwoEvents(s, Take(reply.id), Unregister(reply.id));
    assert s.requests[reply.id := Leaving(Answered(reply))][reply.id := Returned(Answered(reply))]
        == s.requests[reply.id := Returned(Answered(reply))];
  }

  /** The job has been handed out and its request waits for the reply. */
  ghost function Asked(s: State, id: Id, h: Handler): State {
    s.(requests := s.requests[id := Waiting], pending := s.pending[id := id], channels := s.channels[id := None],
       fetches := s.fetches[h := Fetched(id)], place := s.place[id := Handed], handed := s.handed + [id])
  }

  lemma JobIsFetched(s: State, id: Id, h: Handler)
    requires id !in s.requests && h !in s.fetches && s.queue == []
    ensures ExecFrom(ExecFrom(s, [Begin(id), Enqueue(id)]), [Poll(h), Dequeue(h), Check(h)]) == Asked(s, id, h)
  {
    RequestIsQueued(s, id);
    var t := ExecFrom(s, [Begin(id), Enqueue(id)]);
    assert t.queue == [id] && t.queue[1..] == s.queue;
    JobIsHandedOut(t, h, id);
    assert s.place[id := Queued][id := Handed] == s.place[id := Handed];
  }

  lemma ReplyIsReturned(s: State, reply: Reply, g: Handler)
    requires g !in s.postings && reply.id in s.pending && s.pending[reply.id] == reply.id
    requires reply.id in s.channels && s.channels[reply.id].None?
    requires reply.id in s.requests && s.requests[reply.id].Waiting?
    ensures ExecFrom(ExecFrom(s, [Post(g, reply), LookUp(g), Send(g)]), [Take(reply.id), Unregister(reply.id)])
         == s.(requests := s.requests[reply.id := Returned(Answered(reply))], pending := s.pending - {reply.id},
               postings := s.postings[g := Posted], posted := s.posted + {reply})
  {
    ReplyIsKept(s, g, reply);
    AnswerIsReturned(ExecFrom(s, [Post(g, reply), LookUp(g), Send(g)]), reply);
    assert s.channels[reply.id := Some(reply)][reply.id := None] == s.channels;
  }

  /** From any reachable state with an empty queue: a new request whose job is fetched and answered
      returns that very answer, its job having been handed out once, and leaves no entry. */
  lemma RequestIsAnswered(before: seq<Event>, id: Id, h: Handler, g: Handler, body: Body)
    requires var s := Exec(before);
      id !in s.requests && h !in s.fetches && g !in s.postings && s.queue == []
    ensures var s, reply := Exec(before), Reply(id, body);
      var asked := ExecFrom(s, [Begin(id), Enqueue(id)]);
      var fetched := ExecFrom(asked, [Poll(h), Dequeue(h), Check(h)]);
      var posted := ExecFrom(fetched, [Post(g, reply), LookUp(g), Send(g)]);
      ExecFrom(posted, [Take(id), Unregister(id)])
      == s.(requests := s.requests[id := Returned(Answered(reply))], channels := s.channels[id := None],
            fetches := s.fetches[h := Fetched(id)], postings := s.postings[g := Posted],
            place := s.place[id := Handed], handed := s.handed + [id], posted := s.posted + {reply})
  {
    NotPending(before, id);
    Answers(Exec(before), id, h, g, Reply(id, body));
  }

  lemma NotPending(before: seq<Event>, id: Id)
    requires id !in Exec(before).requests
    ensures id !in Exec(before).pending
  {
    ExecKeeps(before);
    assert RequestOk(Exec(before), id);
  }

  lemma Answers(s: State, id: Id, h: Handler, g: Handler, reply: Reply)
    requires id !in s.requests && id !in s.pending && h !in s.fetches && g !in s.postings && s.queue == []
    requires reply.id == id
    ensures
      var asked := ExecFrom(s, [Begin(id), Enqueue(id)]);
      var fetched := ExecFrom(asked, [Poll(h), Dequeue(h), Check(h)]);
      var posted := ExecFrom(fetched, [Post(g, reply), LookUp(g), Send(g)]);
      ExecFrom(posted, [Take(id), Unregister(id)])
      == s.(requests := s.requests[id := Returned(Answered(reply))], channels := s.channels[id := None],
            fetches := s.fetches[h := Fetched(id)], postings := s.postings[g := Posted],
            place := s.place[id := Handed], handed := s.handed + [id], posted := s.posted + {reply})
  {
    JobIsFetched(s, id, h);
    ReplyIsReturned(Asked(s, id, h), reply, g);
    Overall(s, id, h, g, reply);
  }

  lemma Overall(s: State, id: Id, h: Handler, g: Handler, reply: Reply)
    requires id !in s.pending && reply.id == id
    ensures var t := Asked(s, id, h);
      t.(requests := t.requests[id := Returned(Answered(reply))], pending := t.pending - {id},
         postings := t.postings[g := Posted], posted := t.posted + {reply})
      == s.(requests := s.requests[id := Returned(Answered(reply))], channels := s.channels[id := None],
            fetches := s.fetches[h := Fetched(id)], postings := s.postings[g := Posted],
            place := s.place[id := Handed], handed := s.handed + [id], posted := s.posted + {reply})
  {
    assert s.requests[id := Waiting][id := Returned(Answered(reply))] == s.requests[id := Returned(Answered(reply))];
    assert s.pending[id := id] - {id} == s.pending;
  }

  /** A request that gives up says whether its job had been queued. */
  lemma RequestGivesUp(s: State, id: Id)
    requires id in s.requests && (s.requests[id].Registered? || s.requests[id].Waiting?)
    ensures ExecFrom(s, [Timeout(id), Unregister(id)])
         == s.(requests := s.requests[id := Returned(if s.requests[id].Waiting? then TimedOut else Unavailable)],
               pending := s.pending - {id})
  {
    TwoEvents(s, Timeout(id), Unregister(id));
    var answer := if s.requests[id].Waiting? then TimedOut else Unavailable;
    assert s.requests[id := Leaving(answer)][id := Returned(answer)] == s.requests[id := Returned(answer)];
  }

  // ---- the handlers ----

  /** The bridge's own variables; `m` follows all handlers around them. */
  class Bridge {
    var queue: seq<Id>
    var pending: map<Id, Id>
    var channels: map<Id, Option<Reply>>
    ghost var m: State

    ghost predicate Valid() reads this {
      m.queue == queue && m.pending == pending && m.channels == channels && Inv(m)
    }

    constructor ()
      ensures Valid() && m == INITIAL
    {
      queue, pending, channels := [], map[], map[];
      m := INITIAL;
    }

    /** A request makes its channel and its entry. */
    method Open(id: Id)
      requires Valid() && id !in m.requests
      modifies this
      ensures Valid() && m == Step(old(m), Begin(id))
      ensures pending == old(pending)[id := id] && channels == old(channels)[id := None] && queue == old(queue)
    {
      StepKeeps(m, Begin(id));
      m := Step(m, Begin(id));
      pending := pending[id := id];
      channels := channels[id := None];
    }

    /** It queues its job if there is room. */
    method Offer(id: Id) returns (ok: bool)
      requires Valid() && id in m.requests && m.requests[id].Registered?
      modifies this
      ensures Valid() && m == Step(old(m), Enqueue(id))
      ensures ok <==> |old(queue)| < 32
      ensures pending == old(pending) && channels == old(channels)
      ensures queue == old(queue) + (if ok then [id] else [])
    {
      StepKeeps(m, Enqueue(id));
      m := Step(m, Enqueue(id));
      ok := |queue| < QUEUE;
      if ok {
        queue := queue + [id];
      }
    }

    /** It receives from its channel, if something is there. */
    method Receive(id: Id) returns (reply: Option<Reply>)
      requires Valid() && id in m.requests && m.requests[id].Waiting?
      modifies this
      ensures Valid() && m == Step(old(m), Take(id))
      ensures reply.Some? ==> reply.value.id == id && m.requests[id] == Leaving(Answered(reply.value))
      ensures reply.None? ==> m == old(m)
      ensures id in old(channels) && reply == old(channels)[id] && channels == old(channels)[id := None]
      ensures queue == old(queue) && pending == old(pending)
    {
      assert RequestOk(m, id);
      StepKeeps(m, Take(id));
      m := Step(m, Take(id));
      reply := channels[id];
      channels := channels[id := None];
      if reply.None? { assert m.channels == old(channels); }
    }

    /** The deferred deletion. */
    method Close(id: Id)
      requires Valid() && id in m.requests && m.requests[id].Leaving?
      modifies this
      ensures Valid() && m == Step(old(m), Unregister(id))
      ensures pending == old(pending) - {id} && channels == old(channels) && queue == old(queue)
    {
      StepKeeps(m, Unregister(id));
      m := Step(m, Unregister(id));
      pending := pending - {id};
    }

    /** A fetch takes the next job, and keeps it only if it is still pending. */
    method Next(h: Handler) returns (job: Option<Id>)
      requires Valid() && h in m.fetches && m.fetches[h].Polling? && queue != []
      modifies this
      ensures Valid() && m == Step(Step(old(m), Dequeue(h)), Check(h))
      ensures queue == old(queue)[1..]
      ensures job == if old(queue)[0] in pending then Some(old(queue)[0]) else None
      ensures m.handed == old(m).handed + (if job.Some? then [job.value] else [])
      ensures pending == old(pending) && channels == old(channels)
    {
      StepKeeps(m, Dequeue(h));
      m := Step(m, Dequeue(h));
      StepKeeps(m, Check(h));
      m := Step(m, Check(h));
      var first := queue[0];
      queue := queue[1..];
      job := if first in pending then Some(first) else None;
    }

    /** The non-blocking send of a reply handler, to the channel it looked up. */
    method Put(h: Handler, found: Option<Id>, reply: Reply) returns (kept: bool)
      requires Valid() && h in m.postings && m.postings[h] == Sending(reply, found)
      modifies this
      ensures Valid() && m == Step(old(m), Send(h))
      ensures kept ==> found == Some(reply.id) && channels == old(channels)[reply.id := Some(reply)]
      ensures !kept ==> channels == old(channels)
      ensures kept <==> found.Some? && found.value in old(channels) && old(channels)[found.value].None?
      ensures queue == old(queue) && pending == old(pending)
    {
      assert PostOk(m, h);
      if found.Some? { assert RequestOk(m, found.value); }
      StepKeeps(m, Send(h));
      m := Step(m, Send(h));
      kept := found.Some? && channels[found.value].None?;
      if kept {
        channels := channels[found.value := Some(reply)];
      }
    }
  }
}
