/**
 What a request and the network say to each other, and what its client is told in the
 end. The grammar of whole conversations is given kind by kind, without the tables, and
 the code of a completion is read off the conversation alone.
*/
module GuqosStory {
  import opened Wrappers
  import opened Sequences
  import opened PacketFilters
  import opened Tft
  import opened GuqosState
  import opened GuqosHeap
  import opened GuqosRequests
  import opened GuqosSteps
  import opened GuqosLoops
  import opened GuqosEvents
  import opened GuqosRuns
  import opened GuqosTheorems

  // ---------- conversations ----------

  /** What a call is about. */
  datatype Matter = Removal | Addition | Token | Quality | Commitment | Creation | Nothing

  function About(op: Control): Matter {
    match op
    case ModifyTft(_, AddFilters, _) => Addition
    case ModifyTft(_, RemoveFilters, _) => Removal
    case ModifyTft(_, AddSblp, _) => Token
    case RequestQoS(_) => Quality
    case Activate(_) => Commitment
    case ModifyActive(_) => Commitment
    case CreateSecondary => Creation
    case _ => Nothing
  }

  /** The reply that answers a call. */
  predicate AnswerTo(op: Control, reply: Expected) {
    match op
    case ModifyTft(_, AddFilters, _) => reply == PendingPacketFilterAdd
    case ModifyTft(_, RemoveFilters, _) => reply == PendingPacketFilterRemove
    case ModifyTft(_, AddSblp, _) => reply == PendingSblpParameterAdd
    case RequestQoS(_) => reply == PendingSetQoS
    case Activate(_) => reply == PendingActivate
    case ModifyActive(_) => reply == PendingModifyActive
    case CreateSecondary => reply == PendingCreate
    case _ => false
  }

  /** Calls that were taken, each with its answer. */
  predicate Paired(said: seq<Exchange>) {
    said == []
    || var n := |said| - 2;
       n >= 0 && Paired(said[..n]) && said[n].Called? && said[n + 1].Answered?
         && AnswerTo(said[n].op, said[n + 1].reply)
  }

  function Matters(said: seq<Exchange>): seq<Matter> {
    if |said| < 2 || !said[|said| - 2].Called? then []
    else Matters(said[..|said| - 2]) + [About(said[|said| - 2].op)]
  }

  function Maybe(b: bool, matter: Matter): seq<Matter> {
    if b then [matter] else []
  }

  /** Filters that are not needed are taken away; what has been changed is committed. */
  predicate Clearing(p: seq<Matter>) {
    p == [] || p == [Commitment] || p == [Removal, Commitment]
  }

  /** A filter may be added and others may be taken away; what has been changed is committed. */
  predicate Joining(x: seq<Matter>) {
    x == [] || x == [Commitment] || x == [Addition, Commitment] || x == [Removal, Commitment]
    || x == [Addition, Removal, Commitment]
  }

  /** A context is made, and perhaps gets a filter. */
  predicate Making(x: seq<Matter>) {
    x == [Creation] || x == [Creation, Addition]
  }

  /** The whole conversation of a request that succeeds. */
  ghost predicate Whole(kind: Kind, sblp: bool, calls: seq<Matter>) {
    match kind
    case Negotiate => calls == Maybe(sblp, Token) + [Quality, Commitment]
    case Leave => Clearing(calls)
    case Close => Clearing(calls)
    case Join => exists k: nat :: k <= |calls| && Clearing(calls[..k]) && Joining(calls[k..])
    case Open =>
      var end := Maybe(sblp, Token) + [Quality, Commitment];
      || calls == end
      || (exists k: nat, m: nat ::
         k <= m <= |calls| && Clearing(calls[..k]) && Making(calls[k..m]) && calls[m..] == end)
    case Delete => calls == []
  }

  // ---------- what the client is told ----------

  /** The codes of Join and Leave say which operation failed. */
  function Blamed(kind: Kind, reason: int): Code {
    match kind
    case Join => JoinFailure(reason)
    case Leave => LeaveFailure(reason)
    case _ => Err(reason)
  }

  /** Nothing has gone wrong in the conversation so far. */
  predicate Unspoiled(said: seq<Exchange>) {
    said == [] || said[|said| - 1].Called? || said[|said| - 1].Answered?
  }

  /**
   The code of a completed request. A refused call and an error in a reply are reported as
   they are; a reply to something else ends the request as cancelled; otherwise the
   request died with its context or with the interface, found no identifier for its
   filter, or was fulfilled.
  */
  ghost predicate Justified(d: Done) {
    var n := |d.said|;
    if Unspoiled(d.said) then
      || d.code == Blamed(d.kind, -13) || d.code == Err(-13)
      || (d.code == Blamed(d.kind, -9) && (d.kind == Open || d.kind == Join) && Paired(d.said))
      || (d.code == Err(0) && Fulfilled(d))
    else
      && n >= 2 && Paired(d.said[..n - 2]) && d.said[n - 2].Called?
      && match d.said[n - 1]
         case Denied(op, code) => d.said[n - 2] == Called(op) && code < 0 && d.code == Blamed(d.kind, code)
         case Failed(reply, reason) =>
           && reason != 0
           && (|| (AnswerTo(d.said[n - 2].op, reply) && d.code == Blamed(d.kind, reason))
               || (reply == PendingCreate && d.code == Err(reason)))
         case Strange(reply) => !AnswerTo(d.said[n - 2].op, reply) && d.code == Err(-3)
         case _ => false
  }

  /** A request that succeeds is a Delete, had nothing to do, or has had its whole conversation. */
  ghost predicate Fulfilled(d: Done) {
    d.kind == Delete || (d.said == [] && (d.kind == Open || d.kind == Join))
    || (Paired(d.said) && Whole(d.kind, d.sblp, Matters(d.said)))
  }

  /** The client of a request has been told the code with which it completed. */
  ghost predicate Logs(log: seq<Done>, r: RequestRef, code: Code) {
    exists i :: 0 <= i < |log| && log[i].request == r && log[i].code == code && log[i].kind != Close
                && log[i].kind != Delete
  }

  ghost predicate Told(upcalls: seq<Upcall>, log: seq<Done>) {
    forall i :: 0 <= i < |upcalls| && upcalls[i].RequestComplete? ==> Logs(log, upcalls[i].request, upcalls[i].code)
  }

  /** Requests of these kinds are about a context. */
  predicate Aimed(q: Request) {
    q.kind != Open && q.kind != Delete ==> q.target.Some?
  }

  ghost predicate Recorded(s: State) {
    && (forall i :: 0 <= i < |s.log| ==> Justified(s.log[i]))
    && Told(s.upcalls, s.log)
    && (forall r :: r in s.req ==> Aimed(s.req[r]))
  }

  // ---------- the conversation so far ----------

  /** The calls before the action of state `i`; `modified` says that the context has been changed. */
  ghost predicate Sofar(kind: Kind, i: nat, modified: bool, sblp: bool, calls: seq<Matter>) {
    match kind
    case Negotiate => Ending(i + 5, modified, sblp, calls)
    case Leave => Cleared(i, modified, calls)
    case Close => Cleared(i, modified, calls)
    case Join =>
      if i <= 2 then Cleared(i, modified, calls)
      else exists k: nat :: k <= |calls| && Clearing(calls[..k]) && Joined(i, modified, calls[k..])
    case Open =>
      if i <= 2 then Cleared(i, modified, calls)
      else if i <= 4 then
        exists k: nat :: k <= |calls| && Clearing(calls[..k]) && calls[k..] == [Creation]
      else
        exists m: nat :: m <= |calls| && Made(calls[..m]) && Ending(i, modified, sblp, calls[m..])
    case Delete => false
  }

  predicate Cleared(i: nat, modified: bool, calls: seq<Matter>) {
    if i == 0 then calls == []
    else if i == 1 then calls == [] || (calls == [Removal] && modified)
    else Clearing(calls)
  }

  predicate Joined(i: nat, modified: bool, x: seq<Matter>) {
    if i == 3 then x == []
    else if i <= 5 then x == [] || (x == [Addition] && modified)
    else if i == 6 then
      x == [] || ((x == [Addition] || x == [Removal] || x == [Addition, Removal]) && modified)
    else Joining(x)
  }

  ghost predicate Made(x: seq<Matter>) {
    x == [] || exists k: nat :: k <= |x| && Clearing(x[..k]) && Making(x[k..])
  }

  predicate Ending(i: nat, modified: bool, sblp: bool, x: seq<Matter>) {
    if i == 5 then x == []
    else if i == 6 then x == Maybe(sblp, Token)
    else if i == 7 then x == Maybe(sblp, Token) + [Quality] && modified
    else x == Maybe(sblp, Token) + [Quality, Commitment]
  }

  /** What the action of the tables is about. */
  function Topic(action: Action): Matter {
    match action
    case RemovePacketFilter => Removal
    case Commit => Commitment
    case NewContext => Creation
    case AddPacketFilter => Addition
    case AddSblpParameter => Token
    case SetQoS => Quality
    case _ => Nothing
  }

  /** An action that may be passed over. */
  predicate MaySkip(action: Action, modified: bool, sblp: bool) {
    match action
    case Commit => !modified
    case AddSblpParameter => !sblp
    case NewContext => false
    case SetQoS => false
    case _ => true
  }

  lemma SkipsOn(kind: Kind, i: nat, modified: bool, sblp: bool, calls: seq<Matter>)
    requires i + 1 < |Table(kind)| && Sofar(kind, i, modified, sblp, calls)
    requires MaySkip(Table(kind)[i], modified, sblp)
    ensures Sofar(kind, i + 1, modified, sblp, calls)
  {
    if kind == Join && i == 2 {
      assert calls[..|calls|] == calls && calls[|calls|..] == [];
    } else if kind == Open && i == 4 {
      var k: nat :| k <= |calls| && Clearing(calls[..k]) && calls[k..] == [Creation];
      assert calls[..|calls|] == calls && calls[|calls|..] == [];
    }
  }

  lemma AsksOn(kind: Kind, i: nat, modified: bool, sblp: bool, calls: seq<Matter>)
    requires i + 1 < |Table(kind)| && Sofar(kind, i, modified, sblp, calls)
    requires Topic(Table(kind)[i]) != Nothing && (Table(kind)[i] == AddSblpParameter ==> sblp)
    ensures Sofar(kind, i + 1, true, sblp, calls + [Topic(Table(kind)[i])])
  {
    if kind == Join && i > 2 {
      JoinAsks(i, modified, calls, Topic(Table(kind)[i]));
    } else if kind == Open && i == 2 {
      CreationAsked(calls);
    } else if kind == Open && i == 4 {
      AdditionAsked(calls);
    } else if kind == Open && i > 4 {
      EndingAsks(i, modified, sblp, calls, Topic(Table(kind)[i]));
    }
    hide Made, Joining, Clearing, Joined;
  }

  lemma JoinAsks(i: nat, modified: bool, calls: seq<Matter>, topic: Matter)
    requires 3 <= i <= 6 && Sofar(Join, i, modified, false, calls)
    requires topic == if i == 3 then Addition else if i == 5 then Removal else Commitment
    requires i != 4
    ensures Sofar(Join, i + 1, true, false, calls + [topic])
  {
    var longer := calls + [topic];
    var k: nat :| k <= |calls| && Clearing(calls[..k]) && Joined(i, modified, calls[k..]);
    assert longer[..k] == calls[..k] && longer[k..] == calls[k..] + [topic];
    hide Clearing;
  }

  lemma CreationAsked(calls: seq<Matter>)
    requires Clearing(calls)
    ensures Sofar(Open, 3, true, false, calls + [Creation])
  {
    var longer := calls + [Creation];
    assert longer[..|calls|] == calls && longer[|calls|..] == [Creation];
    hide Clearing;
  }

  lemma AdditionAsked(calls: seq<Matter>)
    requires Sofar(Open, 4, true, false, calls)
    ensures Sofar(Open, 5, true, false, calls + [Addition])
  {
    var longer := calls + [Addition];
    var k: nat :| k <= |calls| && Clearing(calls[..k]) && calls[k..] == [Creation];
    assert longer[..k] == calls[..k] && longer[k..] == [Creation, Addition];
    assert longer[..|longer|] == longer && longer[|longer|..] == [];
    hide Clearing;
  }

  lemma EndingAsks(i: nat, modified: bool, sblp: bool, calls: seq<Matter>, topic: Matter)
    requires 5 <= i <= 7 && Sofar(Open, i, modified, sblp, calls)
    requires topic == if i == 5 then Token else if i == 6 then Quality else Commitment
    requires i == 5 ==> sblp
    ensures Sofar(Open, i + 1, true, sblp, calls + [topic])
  {
    hide Made;
    var longer := calls + [topic];
    var m: nat :| m <= |calls| && Made(calls[..m]) && Ending(i, modified, sblp, calls[m..]);
    assert longer[..m] == calls[..m] && longer[m..] == calls[m..] + [topic];
  }

  lemma WholeAtEnd(kind: Kind, modified: bool, sblp: bool, calls: seq<Matter>)
    requires kind != Delete && Sofar(kind, |Table(kind)| - 1, modified, sblp, calls)
    ensures Whole(kind, sblp, calls)
  {
    if kind == Open {
      var end := Maybe(sblp, Token) + [Quality, Commitment];
      var m: nat :| m <= |calls| && Made(calls[..m]) && calls[m..] == end;
      if calls[..m] == [] {
        assert calls == end;
      } else {
        var k: nat :| k <= m && Clearing(calls[..m][..k]) && Making(calls[..m][k..]);
        assert calls[..m][..k] == calls[..k] && calls[..m][k..] == calls[k..m];
      }
    }
  }
}
