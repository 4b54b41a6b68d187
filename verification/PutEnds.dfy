/**
 A PUT to a server whose response fits its packets always comes to an end, whatever the server
 answers: the client gets its response, or a link error, a pointer gone astray or an oversize
 packet stops it. Which of these it is can be told from the sizes in the queue.
 */
module PutEnds {
  import opened Octets
  import opened Headers
  import opened Fragmenter
  import opened Reassembler
  import opened Transfer
  import opened Sizes
  import opened Outcomes
  import opened Session
  import opened Events
  import opened Lifetime
  import opened Lockstep
  import opened Put
  import opened PutServer
  import opened PutClient
  import opened PutRun
  import opened Loads

  // ---- What the client has left ----

  /** What is known of the queue: every header fits a packet, or all of it is sure to get
      through in packets of at most so many octets. */
  datatype Hope = Fair | Sure(most: nat)

  /** By sizes, when the application feeds a stream properly. */
  predicate Gauged(c: Party) {
    c.current.Some? && (HasStream(c.current.value.txQueue) ==> Proper(c.current.value.stream, c.feed))
  }

  function PiecesLeft(c: Party): seq<Piece>
    requires c.current.Some?
  {
    Pieces(c.current.value.txQueue, |Content(c.current.value.stream, c.feed)|)
  }

  /** What is left gets through, in packets of at most so many octets. */
  predicate Passing(c: Party, most: nat)
    requires c.current.Some?
  {
    Passes(PiecesLeft(c), TxBudget(c), TxLimits(c), most)
  }

  /** What is left can be sent: it is sure to pass, or at least every header fits a packet. */
  predicate Able(c: Party, hope: Hope) {
    && c.current.Some?
    && if hope.Sure? then Gauged(c) && Passing(c, hope.most)
       else Fitting(c.current.value.txQueue, TxBudget(c)) && TxBudget(c) > 3
  }

  function Left(c: Party, hope: Hope): nat
    requires c.current.Some?
  {
    if hope.Sure? then Heft(PiecesLeft(c)) else Weight(c.current.value.txQueue, c.current.value.stream, c.feed)
  }

  lemma PassingPack(c: Party, most: nat)
    requires Able(c, Sure(most)) && most >= 3
    ensures Packed(c).status.Full? && |EncodeAll(Packed(c).frags)| + 3 <= most
  {
    hide Pack, Filled, Content, EncodeAll, Proper;
    var o := c.current.value;
    if o.txQueue == [] {
      PackEmpty(TxBudget(c), TxLimits(c), o.stream, c.feed);
      NothingEncoded();
    } else {
      PackFilled(o.txQueue, TxBudget(c), TxLimits(c), o.stream, c.feed);
      PackSize(o.txQueue, TxBudget(c), TxLimits(c), o.stream, c.feed);
    }
  }

  lemma PackEmpty(left: nat, lim: Limits, s: Stream, feed: seq<StreamCall>)
    ensures Pack([], left, lim, s, feed) == Packing([], [], left, s, feed, 0, Full)
  {
  }

  lemma NothingEncoded()
    ensures EncodeAll([]) == []
  {
  }

  /** The packet just made lightens the queue, and leaves what can be sent. */
  lemma SentLightens(c: Party, c': Party, hope: Hope)
    requires Able(c, hope) && SentNext(c, c')
    ensures Able(c', hope) && TxBudget(c') == TxBudget(c)
    ensures if c.current.value.txQueue == [] then Left(c', hope) == Left(c, hope) else Left(c', hope) < Left(c, hope)
  {
    hide Pack, Filled, Content, EncodeAll, Proper, TxBudget, Fitting, Heft;
    var o := c.current.value;
    BudgetSame(c, c');
    if o.txQueue == [] {
      EmptyPacket(c, c');
    } else if hope.Sure? {
      PackFilled(o.txQueue, TxBudget(c), TxLimits(c), o.stream, c.feed);
      PackSize(o.txQueue, TxBudget(c), TxLimits(c), o.stream, c.feed);
    } else {
      PackWeight(o.txQueue, TxBudget(c), TxLimits(c), o.stream, c.feed, TxBudget(c));
    }
  }

  // ---- The measure ----

  /** Nothing has gone wrong, and what is still to be sent on either side can be. */
  ghost predicate Afoot(w: World, x: Exchange, hope: Hope) {
    && !Over(w) && Putting(w, x) && Measured(x.app) && Fits(w.server)
    && (!x.app.Willing? ==> TxBudget(w.server) > 3)
    && (w.client.current.Some? ==> Able(w.client, hope))
  }

  /** A bound on the turns still to come. */
  function Remaining(w: World, hope: Hope): nat {
    if w.client.current.None? then 0
    else
      var weight := 4 * (Left(w.client, hope) + Backlog(w.server));
      if w.up != [] then weight + (if w.server.state.Responding? then 1 else 3)
      else weight + if w.server.current.Some? then 2 else 1
  }

  /** The turn that can be taken. */
  function NextTurn(w: World): Act {
    if w.up != [] then ServerTurn else ClientTurn
  }

  // ---- Every turn counts ----

  lemma ServerLoad(p: Party, s: Party, app: App, st: bool, packet: seq<byte>, n: nat, sim: Rx)
    requires Ready(p, app, st, n) || Taking(p, app, st, n)
    requires s == (if Ready(p, app, st, n) then Announced(p) else p) && Taking(s, app, st, n) && Holds(s, n, sim)
    requires Measured(app) && Fits(p)
    requires |packet| >= 3 && ClearFinal(packet[0]) == PUT && HeadersIn(packet).outcome.Clean?
    ensures StepsOn(p, ServerReceive(s, packet), app)
  {
    hide ServerReceive, Serving, Announced, HeadersIn, Holds, ReadyScript, Backlog, Fits, LinkErrorIn, Reqs, TxBudget;
    if Ready(p, app, st, n) {
      AnnounceLoad(p, app, st, n);
      LighterFits(p, s);
    }
    TakeLoad(s, app, st, packet, n, sim);
  }

  /** What a turn of the server does to its load, and to nothing else but the wire. */
  predicate ServerStepsOn(w: World, w': World, x: Exchange) {
    w'.client == w.client && w'.up == [] && StepsOn(w.server, w'.server, x.app)
  }

  lemma CollectingLoad(w: World, x: Exchange, sim: Rx)
    requires Collecting(w, x, sim) && Measured(x.app) && Fits(w.server) && Holding(w.server, w.up)
    ensures ServerStepsOn(w, Play(w, ServerTurn), x)
  {
    hide ServerStep, ServerReceive, StoreAll, HeadersIn, InStep, Holds, Keeping, Taking, Ready, Received, Gathered,
         Stopped, Oversized, LinkErrorIn, StepsOn, Fits, Announced, Play;
    var s := ServerTakes(w, x, sim);
    KeepsObject(w.client, x.m);
    TurnTreats(w, w.up);
    WholeSize(w.up);
    if Ready(w.server, x.app, x.st, x.n) {
      NotTaking(w.server, x.app, x.st, x.n);
    }
    ServerLoad(w.server, s, x.app, x.st, w.up, x.n, sim);
  }

  lemma NotTaking(p: Party, app: App, st: bool, n: nat)
    requires Ready(p, app, st, n)
    ensures !Taking(p, app, st, n)
  {
  }

  lemma AskingLoad(w: World, x: Exchange)
    requires AskingOn(w, x) && Measured(x.app) && Fits(w.server)
    ensures var w' := Play(w, ServerTurn);
            && ServerStepsOn(w, w', x)
            && (TxBudget(w.server) > 3 ==> Stopped(w'.server) || Backlog(w'.server) < Backlog(w.server))
  {
    hide ServerReply, HeadersIn, Keeping, Told, Stopped, Oversized, LinkErrorIn, StepsOn, Fits, Play, Backlog, TxBudget,
         RestOk, OpcodesOk, QueueOk;
    BareWhole(SetFinal(PUT));
    TurnTreats(w, w.up);
    assert ServerStep(w.server, w.up) == ServerReply(w.server, PUT);
    ReplyLoad(w.server, x.app, x.st);
  }

  // ---- The phases, seen from the measure ----

  /** The client waits, and the answer is under way. */
  lemma AnswerPhase(w: World, x: Exchange, sim: Rx)
    requires Midway(w, x, sim) || Settling(w, x)
    ensures Putting(w, x) && w.up == [] && w.down != [] && w.client.current.Some?
    ensures Midway(w, x, sim) ==> w.server.current.Some? && w.client.current.value.txQueue != []
  {
    hide Keeping, HeadersIn, StoreAll, Holds, Reqs, Told, InStep, RestOk, OpcodesOk, QueueOk;
    KeepsObject(w.client, x.m);
  }

  /** The client waits, and the request is under way. */
  lemma RequestPhase(w: World, x: Exchange, sim: Rx)
    requires Collecting(w, x, sim) || AskingOn(w, x)
    ensures Putting(w, x) && |w.up| >= 3 && w.down == [] && w.client.current.Some?
    ensures w.server.state.Responding? <==> !Collecting(w, x, sim)
    ensures AskingOn(w, x) ==> w.server.current.Some? && w.client.current.value.txQueue == []
  {
    hide Keeping, HeadersIn, StoreAll, Gathered, Reqs, Told, InStep, RestOk, OpcodesOk, QueueOk, ReadyScript;
    KeepsObject(w.client, x.m);
  }

  lemma CollectingAhead(w: World, x: Exchange, sim: Rx, hope: Hope)
    requires Afoot(w, x, hope) && Collecting(w, x, sim)
    ensures var w' := Play(w, ServerTurn);
            Over(w') || (Afoot(w', x, hope) && Remaining(w', hope) < Remaining(w, hope))
  {
    hide Play, Putting, Collecting, AskingOn, Midway, Settling, StoreAll, HeadersIn, Over, Able, Left, Backlog, Fits,
         TxBudget, Stopped;
    RequestPhase(w, x, sim);
    CollectingStep(w, x, sim);
    var w' := Play(w, ServerTurn);
    if !Holding(w.server, w.up) {
      FaultOver(w');
    } else {
      CollectingLoad(w, x, sim);
    }
    if Stopped(w'.server) { StoppedOver(w'); }
    if !Over(w') {
      AnswerPhase(w', x, StoreAll(sim, HeadersIn(w.up).headers));
    }
  }

  lemma AskingAhead(w: World, x: Exchange, hope: Hope)
    requires Afoot(w, x, hope) && AskingOn(w, x)
    ensures var w' := Play(w, ServerTurn);
            Over(w') || (Afoot(w', x, hope) && Remaining(w', hope) < Remaining(w, hope))
  {
    hide Play, Putting, Collecting, AskingOn, Midway, Settling, Over, Able, Left, Backlog, Fits, TxBudget, Stopped;
    RequestPhase(w, x, NewRx());
    AskingNotCollecting(w, x);
    AskingStep(w, x);
    AskingLoad(w, x);
    var w' := Play(w, ServerTurn);
    if Stopped(w'.server) { StoppedOver(w'); }
    if !Over(w') {
      AnswerPhase(w', x, NewRx());
    }
  }

  /** A willing server has nothing to go on about. */
  lemma AskingNotCollecting(w: World, x: Exchange)
    requires AskingOn(w, x)
    ensures !x.app.Willing? && forall sim :: !Collecting(w, x, sim)
  {
    hide Keeping, HeadersIn, StoreAll, Gathered, Reqs, Told, InStep, ReadyScript;
  }

  lemma MidwayAhead(w: World, x: Exchange, sim: Rx, hope: Hope)
    requires Afoot(w, x, hope) && Midway(w, x, sim)
    ensures var w' := Play(w, ClientTurn);
            Over(w') || (Afoot(w', x, hope) && Remaining(w', hope) < Remaining(w, hope))
  {
    hide Play, Putting, Collecting, Finished, AskingOn, Settling, Over, Able, Left, Backlog, Fits, TxBudget, Stopped,
         HeadersIn;
    AnswerPhase(w, x, sim);
    MidwayStep(w, x, sim);
    MidwaySent(w, x, sim);
    var w' := Play(w, ClientTurn);
    if Stopped(w'.client) { StoppedOver(w'); }
    if !Over(w') {
      if Collecting(w', x, sim) {
        SentLightens(w.client, w'.client, hope);
        RequestPhase(w', x, sim);
      } else {
        FinishedPhase(w', x);
      }
    }
  }

  /** The client goes on when asked to; what a restrained server answers always asks. */
  lemma MidwaySent(w: World, x: Exchange, sim: Rx)
    requires Midway(w, x, sim)
    ensures var w' := Play(w, ClientTurn);
            && w'.server == w.server
            && (Collecting(w', x, sim) ==> Stopped(w'.client) || SentNext(w.client, w'.client))
            && (Restrained(x.app) ==>
                  && (Stopped(w'.client) || SentNext(w.client, w'.client))
                  && (Packed(w.client).status.Full? && Holding(w.client, w.down) ==> SentNext(w.client, w'.client))
                  && !Finished(w', x))
  {
    hide ClientStep, HeadersIn, Reqs, NoEnd, LinkErrorIn, Packed, PassiveScript, SentNext, Serving, Told, InStep,
         Holds, Play;
    KeepsObject(w.client, x.m);
    TurnTreats(w, w.down);
    WholeSize(w.down);
    TakesAnswer(w.client, w.down, x.m);
  }

  lemma SettlingAhead(w: World, x: Exchange, hope: Hope)
    requires Afoot(w, x, hope) && Settling(w, x)
    ensures var w' := Play(w, ClientTurn);
            Over(w') || (Afoot(w', x, hope) && Remaining(w', hope) < Remaining(w, hope))
  {
    hide Play, Putting, Collecting, AskingOn, Midway, Settling, Over, Able, Left, Backlog, Fits, TxBudget, Stopped,
         Finished;
    AnswerPhase(w, x, NewRx());
    SettlingStep(w, x);
    SettlingSent(w, x);
    var w' := Play(w, ClientTurn);
    if Stopped(w'.client) { StoppedOver(w'); }
    if !Over(w') {
      if AskingOn(w', x) {
        SentLightens(w.client, w'.client, hope);
        AskingNotCollecting(w', x);
        RequestPhase(w', x, NewRx());
      } else {
        FinishedPhase(w', x);
      }
    }
  }

  lemma SettlingSent(w: World, x: Exchange)
    requires Settling(w, x)
    ensures w.client.current.Some? && (Restrained(x.app) ==> w.client.current.value.txQueue == [])
    ensures var w' := Play(w, ClientTurn);
            && w'.server == w.server
            && (AskingOn(w', x) ==>
                  && w.client.current.value.txQueue == [] && w.server.current.Some?
                  && (Stopped(w'.client) || SentNext(w.client, w'.client)))
            && (Restrained(x.app) && Holding(w.client, w.down) ==>
                  if ClearFinal(w.down[0]) == CONTINUE then Keeping(w'.client, x.m) && SentNext(w.client, w'.client)
                  else ClosedBy(w.client, w'.client, EvReqDone, ClearFinal(w.down[0]), x.m))
  {
    hide ClientStep, HeadersIn, Reqs, NoEnd, LinkErrorIn, Packed, PassiveScript, SentNext, RestOk, OpcodesOk,
         QueueOk, Told, ClosedBy, Play;
    KeepsObject(w.client, x.m);
    TurnTreats(w, w.down);
    WholeSize(w.down);
    TakesAnswer(w.client, w.down, x.m);
    if w.client.current.value.txQueue == [] { NothingToPack(w.client); }
    if AskingOn(Play(w, ClientTurn), x) {
      KeepsObject(Play(w, ClientTurn).client, x.m);
      NotClosed(w.client, Play(w, ClientTurn).client, x.m, ClearFinal(w.down[0]));
    }
  }

  lemma NothingToPack(c: Party)
    requires c.current.Some? && c.current.value.txQueue == []
    ensures Packed(c).status.Full?
  {
  }

  /** A willing server that has reported the request is done with it. */
  lemma WillingSays(s: Party, st: bool, n: nat, whole: seq<Header>, a: byte)
    requires Reported(s, Willing, st, n, whole, a)
    ensures a == SUCCESS && Rested(s) && RestOk(Willing, s.script)
  {
    hide Told, RestOk, OpcodesOk;
  }

  lemma NotClosed(p: Party, p': Party, m: nat, rsp: nat)
    requires Waiting(p')
    ensures !ClosedBy(p, p', EvReqDone, rsp, m) && !ClosedBy(p, p', EvParseErr, rsp, m)
  {
    hide Closed, PassiveScript, LinkErrorIn;
  }

  lemma FinishedPhase(w: World, x: Exchange)
    requires Finished(w, x)
    ensures Putting(w, x) && w.client.current.None? && Silent(w) && (Restrained(x.app) ==> Completed(w, x))
  {
    hide Told, Reqs, NoEnd, PassiveScript;
  }

  // ---- Every queue whose headers fit ----

  /** Until the client is done exactly one side can take a turn, and its turn counts. */
  lemma PutAdvances(w: World, x: Exchange, hope: Hope)
    requires Afoot(w, x, hope) && !Finished(w, x)
    ensures var w' := Play(w, NextTurn(w));
            Over(w') || (Afoot(w', x, hope) && Remaining(w', hope) < Remaining(w, hope))
    ensures Play(w, if NextTurn(w).ServerTurn? then ClientTurn else ServerTurn) == w
  {
    hide Play, Collecting, AskingOn, Midway, Settling, Finished, Over, Completed, Able, Left, Fits, TxBudget;
    NothingToTake(w);
    if sim :| Collecting(w, x, sim) {
      RequestPhase(w, x, sim);
      CollectingAhead(w, x, sim, hope);
    } else if AskingOn(w, x) {
      RequestPhase(w, x, NewRx());
      AskingAhead(w, x, hope);
    } else if sim :| Midway(w, x, sim) {
      AnswerPhase(w, x, sim);
      MidwayAhead(w, x, sim, hope);
    } else {
      AnswerPhase(w, x, NewRx());
      SettlingAhead(w, x, hope);
    }
  }

  lemma FinishedRests(w: World, x: Exchange)
    requires Finished(w, x)
    ensures Play(w, ServerTurn) == w && Play(w, ClientTurn) == w
  {
    hide Play, Completed, Ended, NothingOrAll, PassiveScript;
    NothingToTake(w);
  }

  predicate Turning(a: Act) {
    a.ServerTurn? || a.ClientTurn?
  }

  /** The turns of a run that had any effect. */
  ghost function Moves(w: World, acts: seq<Act>): nat
    decreases |acts|
  {
    if acts == [] then 0
    else
      var before := PlayAll(w, acts[..|acts| - 1]);
      Moves(w, acts[..|acts| - 1])
      + if Over(before) || !Turning(acts[|acts| - 1]) || Play(before, acts[|acts| - 1]) == before then 0 else 1
  }

  lemma TurnStays(w: World, x: Exchange, hope: Hope, a: Act)
    requires Afoot(w, x, hope) && Turning(a)
    ensures var w' := Play(w, a);
            w' == w || (Over(w') && Remaining(w, hope) > 0)
            || (Afoot(w', x, hope) && Remaining(w', hope) < Remaining(w, hope))
  {
    hide Play, Putting, Over, Finished, Able, Left, Fits, TxBudget, Backlog;
    if Finished(w, x) {
      FinishedRests(w, x);
    } else {
      PutAdvances(w, x, hope);
      SomethingLeft(w, x, hope);
    }
  }

  lemma SomethingLeft(w: World, x: Exchange, hope: Hope)
    requires Afoot(w, x, hope) && !Finished(w, x)
    ensures Remaining(w, hope) > 0
  {
    hide Collecting, AskingOn, Midway, Settling, Finished, Over, Completed, Able, Left, Fits, TxBudget, Backlog;
    if sim :| Collecting(w, x, sim) {
      RequestPhase(w, x, sim);
    } else if AskingOn(w, x) {
      RequestPhase(w, x, NewRx());
    } else if sim :| Midway(w, x, sim) {
      AnswerPhase(w, x, sim);
    } else {
      AnswerPhase(w, x, NewRx());
    }
  }

  /** Reading on costs nothing. */
  lemma ReadsStay(w: World, x: Exchange, hope: Hope, a: Act)
    requires Afoot(w, x, hope) && (a.ServerReads? || a.ClientReads?)
    ensures Afoot(Play(w, a), x, hope) && Remaining(Play(w, a), hope) == Remaining(w, hope)
  {
    hide Play, Putting, Over, Passes, Pieces, Fitting, ScriptFits, Heft, Weight, QueueWeight, ScriptWeight, Content,
         Proper;
    PutReads(w, x, a);
    ReadingOn(w, a);
    RoomyOver(w, Play(w, a));
  }

  lemma {:induction false} MovesBounded(w: World, x: Exchange, hope: Hope, acts: seq<Act>)
    requires Afoot(w, x, hope) && Turns(acts)
    ensures var w' := PlayAll(w, acts);
            || (Over(w') && Moves(w, acts) <= Remaining(w, hope))
            || (Afoot(w', x, hope) && Remaining(w', hope) + Moves(w, acts) <= Remaining(w, hope))
    decreases |acts|
  {
    hide Play, Putting, Over, Able, Left, Fits, TxBudget, Backlog, Remaining;
    if acts == [] {
    } else {
      var before := PlayAll(w, acts[..|acts| - 1]);
      MovesBounded(w, x, hope, acts[..|acts| - 1]);
      var a := acts[|acts| - 1];
      if Over(before) {
      } else if Turning(a) {
        TurnStays(before, x, hope, a);
      } else {
        ReadsStay(before, x, hope, a);
      }
    }
  }

  /** What the server's application adds fits its packets. */
  predicate ServerFits(w: World) {
    Fits(w.server) && TxBudget(w.server) > 3
  }

  /** Every header of the request fits a packet of its own. */
  predicate FittingPut(w: World, calls: seq<ApiCall>, app: App) {
    && PutSetting(w, calls, app) && Measured(app) && ServerFits(w)
    && TxBudget(w.client) > 3 && Fitting(BuildRequest(w.client, PUT, calls).txQueue, TxBudget(w.client))
  }

  lemma PutGetsAfoot(w: World, calls: seq<ApiCall>, app: App, hope: Hope)
    requires PutSetting(w, calls, app) && Measured(app) && Fits(w.server)
    requires !app.Willing? ==> TxBudget(w.server) > 3
    requires Able(Requesting(w.client, calls), hope)
    ensures var start := Play(w, Start(PUT, calls));
            Over(start) || Afoot(start, ExchangeOf(w, calls, app), hope)
  {
    hide Play, Putting, Over, Able, Fits, TxBudget, Keeping, SentNext, Packed, Collecting, PutSetting, BuildRequest,
         Queued;
    var start := Play(w, Start(PUT, calls));
    RequestSent(w, calls, app);
    PutStarts(w, calls, app);
    if Stopped(start.client) { StoppedOver(start); }
    if !Over(start) {
      StartIsPutting(start, ExchangeOf(w, calls, app));
      SentLightens(Requesting(w.client, calls), start.client, hope);
    }
  }

  /**
   A PUT of any headers that fit, bodies and streams in any places, to a server that may add
   headers of its own, whatever it answers: no order of turns takes more moves than the weight of
   both queues allows, and when neither side can move the run is over or the client done. With a
   server that accepts the PUT is then complete.
   */
  lemma PutEndsTheorem(w: World, calls: seq<ApiCall>, app: App, acts: seq<Act>)
    requires FittingPut(w, calls, app) && Turns(acts)
    ensures var start := Play(w, Start(PUT, calls));
            var w' := PlayAll(start, acts);
            || Over(start)
            || (&& Moves(start, acts) <= Remaining(start, Fair)
                && (Over(w') || (Play(w', ServerTurn) == w' && Play(w', ClientTurn) == w' ==>
                                   && Finished(w', ExchangeOf(w, calls, app))
                                   && (Restrained(app) ==> Completed(w', ExchangeOf(w, calls, app))))))
  {
    hide Play, PlayAll, Putting, Over, Finished, Completed, PutSetting, Fits, TxBudget, Fitting, BuildRequest, Left,
         Backlog, Queued;
    var x := ExchangeOf(w, calls, app);
    var start := Play(w, Start(PUT, calls));
    FittingIsAble(w, calls, app);
    PutGetsAfoot(w, calls, app, Fair);
    if !Over(start) {
      MovesBounded(start, x, Fair, acts);
      var w' := PlayAll(start, acts);
      if !Over(w') {
        if Finished(w', x) {
          FinishedPhase(w', x);
        } else {
          PutAdvances(w', x, Fair);
        }
      }
    }
  }

  lemma FittingIsAble(w: World, calls: seq<ApiCall>, app: App)
    requires FittingPut(w, calls, app)
    ensures Able(Requesting(w.client, calls), Fair) && Fits(w.server) && TxBudget(w.server) > 3
  {
    hide PutSetting, Fits, Fitting, BuildRequest, TxBudget;
    BudgetSame(w.client, Requesting(w.client, calls));
  }
}
