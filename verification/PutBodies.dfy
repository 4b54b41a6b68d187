/** PUTs of a single header, from the call that adds it to what the server reports. */
module PutBodies {
  import opened Octets
  import opened Headers
  import opened Fragmenter
  import opened Reassembler
  import opened Session
  import opened Events
  import opened Lockstep
  import opened Put
  import opened PutServer
  import opened PutRun
  import opened PutAdds
  import opened Queueing

  function OneHeader(hi: byte, hv: HeaderData): seq<ApiCall> {
    [AddHeader(hi, hv, false, false)]
  }

  /** Everything a PUT needs besides its request. */
  predicate Prepared(w: World, app: App) {
    && Resting(w) && PassiveScript(w.client.script) && ReadyScript(app, w.server.script)
    && InBudget(app, Budget(w.server.mtuTx, w.server.irda, w.server.linkMtu), w.server.mtuTx)
  }

  /** The request made by this one call. */
  lemma OneHeaderBuilt(p: Party, hi: byte, hv: HeaderData)
    ensures BuildRequest(p, PUT, OneHeader(hi, hv)) ==
            Apply(NewRequest(PUT, p.mtuRx), p.mtuTx, AddHeader(hi, hv, false, false))
  {
    hide Apply;
    var calls := OneHeader(hi, hv);
    assert calls[1..] == [];
    assert ApplyAll(Apply(NewRequest(PUT, p.mtuRx), p.mtuTx, calls[0]), p.mtuTx, []) ==
           Apply(NewRequest(PUT, p.mtuRx), p.mtuTx, calls[0]);
  }

  /** A header taken makes a request that can be sent, and is all that is queued. */
  lemma OneHeaderQueued(w: World, hi: byte, hv: HeaderData, app: App)
    requires Prepared(w, app) && hi != EMPTY && w.client.mtuTx >= 3
    requires hi == BODY || (WellFormed(HeaderOf(hi, hv)) && !IsBody(hi) && SizeOnWire(hi, hv) <= w.client.mtuTx - 3)
    ensures PutSetting(w, OneHeader(hi, hv), app) && Queued(w, OneHeader(hi, hv)) == [HeaderOf(hi, hv)]
  {
    hide Apply, Encode, Over, ReadyScript, PassiveScript, HeaderOf, WellFormed, BuildRequest, Meaning, WellFed;
    OneHeaderBuilt(w.client, hi, hv);
    HeaderKeepsId(hi, hv);
    var o := NewRequest(PUT, w.client.mtuRx);
    var o' := Apply(o, w.client.mtuTx, AddHeader(hi, hv, false, false));
    QueuedExactly(o, w.client.mtuTx, hi, hv);
    var e := OneElement(o, w.client.mtuTx, hi, hv);
    assert [] + [e] == [e];
    MeaningAppend([], e, o'.stream, w.client.feed);
    NothingQueued(o'.stream, w.client.feed);
    assert PutRequest(o');
    assert Sendable(o'.txQueue, o'.stream, w.client.feed);
  }

  lemma NothingQueued(s: Stream, feed: seq<StreamCall>)
    ensures Meaning([], s, feed) == []
  {
  }

  lemma OneElement(o: Object, mtuTx: u16, hi: byte, hv: HeaderData) returns (e: TxElement)
    requires mtuTx >= 3 && hi != EMPTY && o.txQueue == []
    requires hi == BODY || SizeOnWire(hi, hv) <= mtuTx - 3
    ensures Apply(o, mtuTx, AddHeader(hi, hv, false, false)).txQueue == [e] && !e.TxStream?
    ensures MeaningOf(e) == [HeaderOf(hi, hv)] && (e.TxHeader? ==> e.header == HeaderOf(hi, hv) && hi != BODY)
  {
    QueuedExactly(o, mtuTx, hi, hv);
    var es := AddedElement(o, mtuTx, AddHeader(hi, hv, false, false));
    e := es[0];
  }

  /** What the server has reported of a PUT that queues these headers, if anything. */
  predicate ToldAtMost(w: World, w': World, whole: seq<Header>) {
    var n := |w.server.events|;
    n <= |w'.server.events| &&
    (Reqs(w'.server.events, n) == [] || Told(w'.server.events, n, whole, Streams(w.server.script)))
  }

  lemma OneHeaderPut(w: World, hi: byte, hv: HeaderData, app: App, acts: seq<Act>)
    requires Prepared(w, app) && Turns(acts) && hi != EMPTY && w.client.mtuTx >= 3
    requires hi == BODY || (WellFormed(HeaderOf(hi, hv)) && !IsBody(hi) && SizeOnWire(hi, hv) <= w.client.mtuTx - 3)
    ensures var w' := PlayAll(Play(w, Start(PUT, OneHeader(hi, hv))), acts);
            Over(w') || ToldAtMost(w, w', [HeaderOf(hi, hv)])
  {
    hide Play, Over, Told, Reqs, AddsInTime, Added, PutSetting, Queued, OneHeader, Prepared, EarlyIn, Turns;
    var calls := OneHeader(hi, hv);
    OneHeaderQueued(w, hi, hv, app);
    var start := Play(w, Start(PUT, calls));
    TurnsAddNothing(start, acts);
    PutTheorem(w, calls, app, acts);
    assert Queued(w, calls) + [] == Queued(w, calls);
  }

  /** A body of any length, added in one call: whatever happens, the server is told of that body
      and nothing else, or of nothing. */
  lemma BodyPut(w: World, bs: seq<byte>, app: App, acts: seq<Act>)
    requires Prepared(w, app) && Turns(acts) && w.client.mtuTx >= 3
    ensures var calls := [AddHeader(BODY, HeaderData(0, 0, bs), false, false)];
            var w' := PlayAll(Play(w, Start(PUT, calls)), acts);
            && PutSetting(w, calls, app) && Queued(w, calls) == [Header(BODY, bs)]
            && (Over(w') || ToldAtMost(w, w', [Header(BODY, bs)]))
  {
    hide Play, Over, PutSetting, Queued, Prepared, Turns, ToldAtMost;
    var hv := HeaderData(0, 0, bs);
    assert HeaderOf(BODY, hv) == Header(BODY, bs);
    OneHeaderQueued(w, BODY, hv, app);
    OneHeaderPut(w, BODY, hv, app, acts);
  }

  /** A number in a four-octet header reads at the other end as the number that was added. */
  lemma NumberPut(w: World, hi: byte, n: u32, app: App, acts: seq<Act>)
    requires Prepared(w, app) && Turns(acts) && w.client.mtuTx >= 8 && hi >= 0xc0
    ensures var calls := [AddHeader(hi, HeaderData(n, 0, []), false, false)];
            var w' := PlayAll(Play(w, Start(PUT, calls)), acts);
            var reqs := Reqs(w'.server.events, |w.server.events|);
            Over(w') || reqs == [] ||
            (&& |reqs| == 1 && |reqs[0].headers| == 1 && reqs[0].headers[0].hi == hi
             && var c := reqs[0].headers[0].value;
             |c| == 4 && n == (c[0] as int) * 0x100_0000 + (c[1] as int) * 0x1_0000 + (c[2] as int) * 0x100 + c[3])
  {
    hide Play, Over, Prepared, Turns, Reqs, Chunks, Big32;
    var hv := HeaderData(n, 0, []);
    Big32Octets(n);
    OneHeaderPut(w, hi, hv, app, acts);
    var h := HeaderOf(hi, hv);
    assert [h][1..] == [];
    assert Plain([h]) == [h];
  }
}
