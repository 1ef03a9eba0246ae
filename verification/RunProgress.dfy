/** That the event client gets on: which attempts stop it, and that reconnecting brings it the whole log. */
module RunProgress {
  import opened Decimals
  import opened Framing
  import opened Prelude
  import opened RunEvents

  // ---- what one attempt does ----

  /** A connection that is lost, or refused with anything but a client error. */
  predicate Harmless(a: Attempt) {
    a.Lost? || (a.Refused? && !(400 <= a.status <= 499))
  }

  /**
   Of the attempts that bring no body exactly a client error and a foreign content type stop the client;
   the others are followed by another request from the same cursor.
   */
  lemma BodilessStopsIff(sequenceOf: Parser, c: Client, a: Attempt)
    requires !c.stopped && !a.Body?
    ensures Request(sequenceOf, c, a) == if Harmless(a) then c.(failures := c.failures + 1) else c.(stopped := true)
  {
  }

  lemma {:induction false} HarmlessChangeNothing(sequenceOf: Parser, c: Client, attempts: seq<Attempt>)
    requires !c.stopped && forall a :: a in attempts ==> Harmless(a)
    ensures Requests(sequenceOf, c, attempts) == c.(failures := c.failures + |attempts|)
    decreases |attempts|
  {
    hide Request, Harmless;
    if attempts != [] {
      BodilessIs(attempts[0]);
      BodilessStopsIff(sequenceOf, c, attempts[0]);
      HarmlessChangeNothing(sequenceOf, c.(failures := c.failures + 1), attempts[1..]);
    }
  }

  lemma BodilessIs(a: Attempt)
    requires Harmless(a)
    ensures !a.Body?
  {
  }

  // ---- a body that is cut off ----

  lemma TextsAreItems(items: seq<Item>)
    ensures |Texts(items)| == |items|
  {
  }

  /** How many whole frames a piece from the front of a body holds. */
  lemma WholeFrames(items: seq<Item>, piece: string) returns (n: nat)
    requires AllClean(Texts(items)) && piece <= Joined(Texts(items), BLANK)
    ensures n <= |items| && Drain(piece, BLANK).frames == Texts(items[..n])
    ensures Joined(Texts(items[..n]), BLANK) <= piece
    ensures n < |items| ==> |piece| < |Joined(Texts(items[..n + 1]), BLANK)|
  {
    hide Find, Drain, Joined, AllClean, Texts;
    var texts := Texts(items);
    CleanTextsAreFrames(texts);
    DrainPrefix(piece, Joined(texts, BLANK), BLANK);
    n := |Drain(piece, BLANK).frames|;
    TextsAreItems(items);
    TextsPrefix(items, n);
    DrainKeepsAll(piece, BLANK);
    if n < |items| && |piece| >= |Joined(Texts(items[..n + 1]), BLANK)| {
      TextsPrefix(items, n + 1);
      JoinedSplit(texts, n + 1);
      var more := Joined(Texts(items[..n + 1]), BLANK);
      assert more <= piece;
      CleanFront(texts, n + 1);
      CleanTextsAreFrames(Texts(items[..n + 1]));
      DrainPrefix(more, piece, BLANK);
    }
  }

  lemma CleanFront(texts: seq<string>, n: nat)
    requires AllClean(texts) && n <= |texts|
    ensures AllClean(texts[..n])
  {
    hide Clean;
  }

  /**
   A body cut anywhere, whose chunks fit, brings exactly the events whose frames it holds in full, up to the
   first whose sequence no double holds, which stops the client.
   */
  lemma CutBodyBrings(sequenceOf: Parser, log: seq<Event>, c: Client, chunks: seq<string>, items: seq<Item>) returns (n: nat)
    requires !c.stopped && Log(log) && Faithful(sequenceOf, log) && Fits("", chunks)
    requires EventsOf(items) <= After(log, c.cursor) && Flat(chunks) <= Joined(Texts(items), BLANK)
    ensures n <= |items| && Joined(Texts(items[..n]), BLANK) <= Flat(chunks)
    ensures n < |items| ==> |Flat(chunks)| < |Joined(Texts(items[..n + 1]), BLANK)|
    ensures var d, part := TakeChunks(sequenceOf, c, "", chunks), EventsOf(items[..n]);
      d.accepted == c.accepted + Leading(IsSafe, part) && (d.stopped <==> !AllPass(IsSafe, part))
  {
    hide Find, Drain, Encodable, Leading, After, Readable, Log, Texts, Joined, EventsOf, TakeChunks, Flat, Fits,
      TakeFrames, AllPass, ShortFrames, AllClean;
    ReadablePart(sequenceOf, log, c.cursor, EventsOf(items));
    EncodableItems(sequenceOf, c.cursor, items);
    ItemsAreClean(items);
    n := WholeFrames(items, Flat(chunks));
    NoCutAtStart();
    var _ := ChunksAreFrames(sequenceOf, c, "", chunks);
    assert "" + Flat(chunks) == Flat(chunks);
    TextsAreItems(items);
    TextsPrefix(items, n);
    ReadablePart(sequenceOf, log, c.cursor, EventsOf(items[..n]));
    ItemsAreTaken(sequenceOf, c, items[..n]);
  }

  // ---- reconnecting ----

  lemma {:induction false} RequestsAppend(sequenceOf: Parser, c: Client, attempts: seq<Attempt>, a: Attempt)
    ensures Requests(sequenceOf, c, attempts + [a]) == Request(sequenceOf, Requests(sequenceOf, c, attempts), a)
    decreases |attempts|
  {
    hide Request;
    if attempts == [] {
      assert [] + [a] == [a] && [a][1..] == [];
    } else {
      assert (attempts + [a])[0] == attempts[0] && (attempts + [a])[1..] == attempts[1..] + [a];
      RequestsAppend(sequenceOf, Request(sequenceOf, c, attempts[0]), attempts[1..], a);
    }
  }

  /** A body of everything after the cursor, in chunks it has room for. */
  ghost predicate Uncut(log: seq<Event>, cursor: nat, chunks: seq<string>) {
    exists items, chunk ::
      && EventsOf(items) == After(log, cursor) && Cuts(items, chunk, chunks) && HasRoom(Texts(items), chunk)
  }

  /** One uncut body brings everything after the cursor that the client can take, and does not stop it. */
  lemma UncutBodyBringsAll(sequenceOf: Parser, log: seq<Event>, c: Client, chunks: seq<string>)
    requires !c.stopped && Log(log) && Faithful(sequenceOf, log) && Uncut(log, c.cursor, chunks)
    requires AllPass(IsSafe, After(log, c.cursor))
    ensures var d := Request(sequenceOf, c, Body(chunks)); !d.stopped && d.accepted == c.accepted + Ids(After(log, c.cursor))
  {
    hide TakeChunks, After, Log, Faithful, AllPass, Ids, HasRoom, Leading, Texts, EventsOf, Joined, Flat, AtMost;
    var items, chunk :|
      EventsOf(items) == After(log, c.cursor) && Cuts(items, chunk, chunks) && HasRoom(Texts(items), chunk);
    var begun := c.(refreshes := c.refreshes + 1);
    RoomyBodyDeliversIff(sequenceOf, log, begun, chunks, items, chunk);
  }

  /** Any number of lost or refused connections, and then an uncut body: everything after the cursor is taken. */
  lemma DeliveredAfterLosses(sequenceOf: Parser, log: seq<Event>, c: Client, losses: seq<Attempt>, chunks: seq<string>)
    requires !c.stopped && Log(log) && Faithful(sequenceOf, log) && (forall a :: a in losses ==> Harmless(a))
    requires Uncut(log, c.cursor, chunks) && AllPass(IsSafe, After(log, c.cursor))
    ensures var d := Requests(sequenceOf, c, losses + [Body(chunks)]);
      !d.stopped && d.accepted == c.accepted + Ids(After(log, c.cursor))
  {
    hide Request, After, Log, Faithful, AllPass, Ids, Uncut;
    HarmlessChangeNothing(sequenceOf, c, losses);
    RequestsAppend(sequenceOf, c, losses, Body(chunks));
    UncutBodyBringsAll(sequenceOf, log, Requests(sequenceOf, c, losses), chunks);
  }

  /**
   Over any run against such a server that has not stopped the client, cut bodies included, one more body
   that is not cut completes the log: what has been accepted is then all of it, in order.
   */
  lemma ReconnectingCompletes(sequenceOf: Parser, log: seq<Event>, after: string, attempts: seq<Attempt>, chunks: seq<string>)
    requires Sequence(after).Some? && Log(log) && Faithful(sequenceOf, log)
    requires AllPass(CanTake, After(log, Sequence(after).value))
    requires HonestRun(sequenceOf, log, Start(after), attempts) && !Requests(sequenceOf, Start(after), attempts).stopped
    requires Uncut(log, Requests(sequenceOf, Start(after), attempts).cursor, chunks)
    ensures var d := Requests(sequenceOf, Start(after), attempts + [Body(chunks)]);
      !d.stopped && d.accepted == Ids(After(log, Sequence(after).value))
  {
    hide Sequence, Requests, Request, HonestRun, After, Leading, Ids, Log, Faithful, LastOr, Start, Uncut, AllPass, CanTake,
      Grew, TakeChunks;
    StartAt(after);
    var start, c := Sequence(after).value, Requests(sequenceOf, Start(after), attempts);
    var added := RunAcceptsAPrefix(sequenceOf, log, Start(after), attempts);
    WholeGrowth(Start(after), c, added);
    Resumes(log, start, added);
    LeadingAreIds(CanTake, After(log, start));
    LeadingAreIds(CanTake, After(log, c.cursor));
    LeadingAscend(log, start, added);
    LastNotBefore(start, added);
    RestCanBeTaken(log, start, c.cursor);
    RequestsAppend(sequenceOf, Start(after), attempts, Body(chunks));
    UncutBodyBringsAll(sequenceOf, log, c, chunks);
  }

  /** A later cursor leaves fewer events, which can be taken as before. */
  lemma RestCanBeTaken(log: seq<Event>, start: nat, cursor: nat)
    requires Log(log) && AllPass(CanTake, After(log, start)) && start <= cursor
    ensures AllPass(CanTake, After(log, cursor)) && AllPass(IsSafe, After(log, cursor))
  {
    hide Log, Encodable, IsShort;
    AfterTwice(log, start, cursor);
    AfterKeepsOrder(log, start);
    AfterKeepsOrder(After(log, start), cursor);
    var rest := After(log, cursor);
    forall i | 0 <= i < |rest| ensures CanTake(rest[i]) && IsSafe(rest[i]) {
      assert rest[i] in After(log, start);
      var j :| 0 <= j < |After(log, start)| && After(log, start)[j] == rest[i];
      assert CanTake(After(log, start)[j]);
    }
  }

  lemma LastNotBefore(start: nat, ids: seq<nat>)
    requires Rises(start, ids)
    ensures LastOr(start, ids) >= start
  {
  }

  // ---- authoritative reads ----

  /** The bodies a client gets to read before something stops it. */
  function BodiesRead(sequenceOf: Parser, c: Client, attempts: seq<Attempt>): nat
    decreases |attempts|
  {
    if attempts == [] || c.stopped then 0
    else (if attempts[0].Body? then 1 else 0) + BodiesRead(sequenceOf, Request(sequenceOf, c, attempts[0]), attempts[1..])
  }

  lemma {:induction false} FramesRefresh(sequenceOf: Parser, c: Client, frames: seq<string>)
    ensures var d := TakeFrames(sequenceOf, c, frames);
      d.refreshes + |c.accepted| == c.refreshes + |d.accepted| && |c.accepted| <= |d.accepted|
    decreases |frames|
  {
    hide ReadFrame;
    if frames != [] { FramesRefresh(sequenceOf, TakeFrame(sequenceOf, c, frames[0]), frames[1..]); }
  }

  lemma {:induction false} ChunksRefresh(sequenceOf: Parser, c: Client, buffer: string, chunks: seq<string>)
    ensures var d := TakeChunks(sequenceOf, c, buffer, chunks);
      d.refreshes + |c.accepted| == c.refreshes + |d.accepted| && |c.accepted| <= |d.accepted|
    decreases |chunks|
  {
    hide TakeFrames, Drain;
    if chunks != [] && !c.stopped && |buffer| + |chunks[0]| <= MAX_FRAME {
      var cut := Drain(buffer + chunks[0], BLANK);
      FramesRefresh(sequenceOf, c, cut.frames);
      ChunksRefresh(sequenceOf, TakeFrames(sequenceOf, c, cut.frames), cut.rest, chunks[1..]);
    }
  }

  lemma RequestRefreshes(sequenceOf: Parser, c: Client, a: Attempt)
    requires !c.stopped
    ensures var d := Request(sequenceOf, c, a);
      d.refreshes + |c.accepted| == c.refreshes + |d.accepted| + if a.Body? then 1 else 0
  {
    hide TakeChunks;
    if a.Body? { ChunksRefresh(sequenceOf, c.(refreshes := c.refreshes + 1), "", a.chunks); }
  }

  /** Every body that is read and every accepted event asks for one authoritative read, and nothing else does. */
  lemma {:induction false} RefreshesAre(sequenceOf: Parser, c: Client, attempts: seq<Attempt>)
    ensures var d := Requests(sequenceOf, c, attempts);
      d.refreshes + |c.accepted| == c.refreshes + |d.accepted| + BodiesRead(sequenceOf, c, attempts)
    decreases |attempts|
  {
    hide Request;
    if attempts != [] {
      if c.stopped {
        StoppedForGood(sequenceOf, c, attempts);
      } else {
        RequestRefreshes(sequenceOf, c, attempts[0]);
        RefreshesAre(sequenceOf, Request(sequenceOf, c, attempts[0]), attempts[1..]);
      }
    }
  }
}
