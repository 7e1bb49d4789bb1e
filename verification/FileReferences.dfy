// Refreshing file references: the handlers given for one origin share one request, and
// may ask for more while they run.
module FileReferences {

  // `saves` marks the origins (sticker sets, saved GIFs) whose answer is also written to disk.
  datatype Origin = Origin(id: int, saves: bool)

  // A handler, by what it asks for when it is called.
  datatype Handler = Handler(asks: seq<Ask>)

  // `found` tells whether what the origin names (a message, a user) is known.
  datatype Ask = Ask(origin: Origin, found: bool, handler: Handler)

  // What waits for an answer: a handler that was given, or the `saver` that was added for
  // an origin that saves. Both are numbered in the order they were pushed.
  datatype Item = Item(id: nat, handler: Handler, saver: bool)

  datatype Place = At(origin: Origin) | Held | Done

  datatype Batch = Batch(origin: Origin, items: seq<Item>)

  // What item number i is.
  datatype Made = Made(origin: Origin, handler: Handler, saver: bool)

  // `waiting` holds the handlers of each origin, `inFlight` the requests on their way.
  // `asked` are all asks, noted by whoever makes them. `made`, `places`, `ran` and `answered`
  // record what each item is and where, in what order items ran, and which items each answer
  // was handed to.
  datatype State = State(
    waiting: map<Origin, seq<Item>>, inFlight: map<nat, Origin>, nextRequest: nat,
    asked: seq<Ask>, made: seq<Made>, places: seq<Place>, ran: seq<nat>, answered: seq<Batch>)

  const INITIAL := State(map[], map[], 1, [], [], [], [], [])

  // ---- The operations ------------------------------------------------------------------

  // Whoever asks notes it.
  function Noted(s: State, a: Ask): State {
    s.(asked := s.asked + [a])
  }

  function NewItem(s: State, m: Made, place: Place): State {
    s.(made := s.made + [m], places := s.places + [place])
  }

  function Push(s: State, o: Origin, handler: Handler, saver: bool): State {
    var items := if o in s.waiting then s.waiting[o] else [];
    NewItem(s, Made(o, handler, saver), At(o)).(
      waiting := s.waiting[o := items + [Item(|s.places|, handler, saver)]])
  }

  function RequestFile(s: State, o: Origin, handler: Handler): State {
    if o in s.waiting then Push(s, o, handler, false)
    else
      Push(s, o, handler, false).(inFlight := s.inFlight[s.nextRequest := o], nextRequest := s.nextRequest + 1)
  }

  function AddSaver(s: State, o: Origin): State {
    if o.saves && o in s.waiting && |s.waiting[o]| == 1 then Push(s, o, Handler([]), true) else s
  }

  function Refresh(s: State, a: Ask): State
    decreases a
  {
    if a.origin.saves || a.found then AddSaver(RequestFile(s, a.origin, a.handler), a.origin)
    else Call(NewItem(s, Made(a.origin, a.handler, false), Held), |s.places|, a.handler)
  }

  function Mark(s: State, id: nat): State {
    s.(places := if id < |s.places| then s.places[id := Done] else s.places, ran := s.ran + [id])
  }

  // Item `id` runs, and asks.
  function Call(s: State, id: nat, handler: Handler): State
    decreases handler
  {
    RefreshAll(Mark(s, id), handler.asks)
  }

  function RefreshAll(s: State, asks: seq<Ask>): State
    decreases asks
  {
    if asks == [] then s else RefreshAll(Refresh(Noted(s, asks[0]), asks[0]), asks[1..])
  }

  function CallAll(s: State, items: seq<Item>): State
    decreases |items|
  {
    if items == [] then s else CallAll(Call(s, items[0].id, items[0].handler), items[1..])
  }

  // The entry of the origin goes first; then everything that was in it runs.
  function TakeOut(s: State, r: nat): State
    requires r in s.inFlight && s.inFlight[r] in s.waiting
  {
    var o := s.inFlight[r];
    s.(waiting := s.waiting - {o}, inFlight := s.inFlight - {r},
       places := seq(|s.places|, i requires 0 <= i < |s.places| => if s.places[i] == At(o) then Held else s.places[i]),
       answered := s.answered + [Batch(o, s.waiting[o])])
  }

  function Answer(s: State, r: nat): State
    requires r in s.inFlight && s.inFlight[r] in s.waiting
  {
    CallAll(TakeOut(s, r), s.waiting[s.inFlight[r]])
  }

  // ---- The invariant ---------------------------------------------------------------------

  predicate Increasing(items: seq<Item>) {
    forall i, j :: 0 <= i < j < |items| ==> items[i].id < items[j].id
  }

  ghost predicate HasId(items: seq<Item>, c: nat) {
    exists i :: 0 <= i < |items| && items[i].id == c
  }

  // What one request is answered for: handlers in the order they were given and, for an
  // origin that saves, one saver right after the first.
  predicate GoodBatch(o: Origin, items: seq<Item>) {
    && |items| > 0 && Increasing(items)
    && (o.saves ==> |items| > 1)
    && forall i :: 0 <= i < |items| ==> (items[i].saver <==> o.saves && i == 1)
  }

  predicate AllAt(places: seq<Place>, items: seq<Item>, place: Place) {
    forall i :: 0 <= i < |items| ==> items[i].id < |places| && places[items[i].id] == place
  }

  // The items are those made under their numbers.
  ghost predicate Recorded(s: State, items: seq<Item>) {
    forall i {:trigger items[i]} :: 0 <= i < |items| ==>
      items[i].id < |s.made| && s.made[items[i].id].handler == items[i].handler
      && s.made[items[i].id].saver == items[i].saver
  }

  ghost predicate OfOrigin(s: State, o: Origin, items: seq<Item>) {
    Recorded(s, items) && forall i {:trigger items[i]} :: 0 <= i < |items| ==> s.made[items[i].id].origin == o
  }

  ghost predicate PlaceFits(s: State, rest: seq<Item>, c: nat)
    requires c < |s.places|
  {
    match s.places[c]
    case At(o) => o in s.waiting && HasId(s.waiting[o], c)
    case Held => HasId(rest, c)
    case Done => c in s.ran
  }

  ghost predicate RanFits(s: State) {
    && (forall c :: c in s.ran ==> c < |s.places| && s.places[c] == Done)
    && forall i, j :: 0 <= i < j < |s.ran| ==> s.ran[i] != s.ran[j]
  }

  ghost predicate WaitingFits(s: State, o: Origin)
    requires o in s.waiting
  {
    && GoodBatch(o, s.waiting[o]) && AllAt(s.places, s.waiting[o], At(o)) && o in s.inFlight.Values
    && OfOrigin(s, o, s.waiting[o])
  }

  ghost predicate FlightFits(s: State, r: nat)
    requires r in s.inFlight
  {
    0 < r < s.nextRequest && s.inFlight[r] in s.waiting
    && forall q :: q in s.inFlight && s.inFlight[q] == s.inFlight[r] ==> q == r
  }

  // `rest` is what an answer still has to run.
  ghost predicate Inv(s: State, rest: seq<Item>) {
    && s.nextRequest == |s.answered| + |s.inFlight| + 1 && RanFits(s) && |s.made| == |s.places|
    && Increasing(rest) && AllAt(s.places, rest, Held) && Recorded(s, rest)
    && (forall o {:trigger WaitingFits(s, o)} :: o in s.waiting ==> WaitingFits(s, o))
    && (forall r {:trigger FlightFits(s, r)} :: r in s.inFlight ==> FlightFits(s, r))
    && (forall c {:trigger PlaceFits(s, rest, c)} :: 0 <= c < |s.places| ==> PlaceFits(s, rest, c))
    && (forall b {:trigger b in s.answered} :: b in s.answered ==> GoodBatch(b.origin, b.items))
  }

  // As `Inv`, except that the list of `o` was just started and may lack its saver.
  ghost predicate Started(s: State, rest: seq<Item>, o: Origin) {
    && o.saves && o in s.waiting && |s.waiting[o]| == 1 && !s.waiting[o][0].saver
    && AllAt(s.places, s.waiting[o], At(o)) && o in s.inFlight.Values && OfOrigin(s, o, s.waiting[o])
    && s.nextRequest == |s.answered| + |s.inFlight| + 1 && RanFits(s) && |s.made| == |s.places|
    && Increasing(rest) && AllAt(s.places, rest, Held) && Recorded(s, rest)
    && (forall p {:trigger WaitingFits(s, p)} :: p in s.waiting && p != o ==> WaitingFits(s, p))
    && (forall r {:trigger FlightFits(s, r)} :: r in s.inFlight ==> FlightFits(s, r))
    && (forall c {:trigger PlaceFits(s, rest, c)} :: 0 <= c < |s.places| ==> PlaceFits(s, rest, c))
    && (forall b {:trigger b in s.answered} :: b in s.answered ==> GoodBatch(b.origin, b.items))
  }

  lemma HasIdPush(items: seq<Item>, x: Item, c: nat)
    ensures HasId(items + [x], c) <==> HasId(items, c) || x.id == c
  {
    if HasId(items, c) {
      var i :| 0 <= i < |items| && items[i].id == c;
      assert (items + [x])[i].id == c;
    }
    if x.id == c { assert (items + [x])[|items|].id == c; }
  }

  // A push adds one item, in one place.
  lemma PushPlaces(s: State, rest: seq<Item>, o: Origin, h: Handler, saver: bool, c: nat)
    requires c < |s.places| + 1
    requires c < |s.places| ==> PlaceFits(s, rest, c)
    ensures PlaceFits(Push(s, o, h, saver), rest, c)
  {
    var items := if o in s.waiting then s.waiting[o] else [];
    HasIdPush(items, Item(|s.places|, h, saver), c);
    var t := Push(s, o, h, saver);
    assert t.waiting[o] == items + [Item(|s.places|, h, saver)];
    if c < |s.places| { assert t.places[c] == s.places[c]; }
  }

  lemma PushOther(s: State, o: Origin, h: Handler, saver: bool, p: Origin)
    requires p in s.waiting && p != o && WaitingFits(s, p)
    ensures WaitingFits(Push(s, o, h, saver), p)
  {
  }

  lemma PushOwn(s: State, o: Origin, h: Handler, saver: bool)
    requires o in s.waiting && |s.waiting[o]| > 0 && |s.made| == |s.places|
    requires AllAt(s.places, s.waiting[o], At(o)) && o in s.inFlight.Values && OfOrigin(s, o, s.waiting[o])
    requires if saver then o.saves && |s.waiting[o]| == 1 && !s.waiting[o][0].saver else GoodBatch(o, s.waiting[o])
    ensures WaitingFits(Push(s, o, h, saver), o)
  {
    var items := s.waiting[o] + [Item(|s.places|, h, saver)];
    assert Push(s, o, h, saver).waiting[o] == items;
    assert Increasing(items);
  }

  lemma PushRest(s: State, rest: seq<Item>, o: Origin, h: Handler, saver: bool)
    requires RanFits(s) && AllAt(s.places, rest, Held) && Recorded(s, rest)
    ensures var t := Push(s, o, h, saver); RanFits(t) && AllAt(t.places, rest, Held) && Recorded(t, rest)
  {
  }

  lemma PushKeepsInv(s: State, rest: seq<Item>, o: Origin, h: Handler)
    requires Inv(s, rest) && o in s.waiting
    ensures Inv(Push(s, o, h, false), rest)
  {
    var t := Push(s, o, h, false);
    PushRest(s, rest, o, h, false);
    assert WaitingFits(s, o);
    PushOwn(s, o, h, false);
    forall p | p in t.waiting ensures WaitingFits(t, p) {
      if p != o { assert WaitingFits(s, p); PushOther(s, o, h, false, p); }
    }
    forall r | r in t.inFlight ensures FlightFits(t, r) { assert FlightFits(s, r); }
    forall c | 0 <= c < |t.places| ensures PlaceFits(t, rest, c) {
      assert c < |s.places| ==> PlaceFits(s, rest, c);
      PushPlaces(s, rest, o, h, false, c);
    }
  }

  lemma SaverKeepsInv(s: State, rest: seq<Item>, o: Origin)
    requires Started(s, rest, o)
    ensures Inv(Push(s, o, Handler([]), true), rest)
  {
    var h := Handler([]);
    var t := Push(s, o, h, true);
    PushRest(s, rest, o, h, true);
    PushOwn(s, o, h, true);
    forall p | p in t.waiting ensures WaitingFits(t, p) {
      if p != o { assert WaitingFits(s, p); PushOther(s, o, h, true, p); }
    }
    forall r | r in t.inFlight ensures FlightFits(t, r) { assert FlightFits(s, r); }
    forall c | 0 <= c < |t.places| ensures PlaceFits(t, rest, c) {
      assert c < |s.places| ==> PlaceFits(s, rest, c);
      PushPlaces(s, rest, o, h, true, c);
    }
  }

  // A new origin gets its one request.
  lemma StartKeepsInv(s: State, rest: seq<Item>, o: Origin, h: Handler)
    requires Inv(s, rest) && o !in s.waiting
    ensures var t := RequestFile(s, o, h); if o.saves then Started(t, rest, o) else Inv(t, rest)
  {
    var u := Push(s, o, h, false);
    var t := RequestFile(s, o, h);
    PushRest(s, rest, o, h, false);
    StartFlight(s, rest, o, h);
    assert t.waiting[o] == [Item(|s.places|, h, false)];
    forall p | p in t.waiting && p != o ensures WaitingFits(t, p) {
      assert WaitingFits(s, p);
      PushOther(s, o, h, false, p);
      StartValues(s, o, p);
    }
    forall c | 0 <= c < |t.places| ensures PlaceFits(t, rest, c) {
      assert c < |s.places| ==> PlaceFits(s, rest, c);
      PushPlaces(s, rest, o, h, false, c);
    }
    if !o.saves { assert WaitingFits(t, o); }
  }

  lemma StartFlight(s: State, rest: seq<Item>, o: Origin, h: Handler)
    requires Inv(s, rest) && o !in s.waiting
    ensures var t := RequestFile(s, o, h);
            && s.nextRequest !in s.inFlight && o in t.inFlight.Values
            && |t.inFlight| == |s.inFlight| + 1
            && forall r {:trigger FlightFits(t, r)} :: r in t.inFlight ==> FlightFits(t, r)
  {
    var t := RequestFile(s, o, h);
    forall r | r in s.inFlight ensures r < s.nextRequest && s.inFlight[r] != o { assert FlightFits(s, r); }
    assert t.inFlight[s.nextRequest] == o;
    forall r | r in t.inFlight ensures FlightFits(t, r) {
      if r in s.inFlight { assert FlightFits(s, r); }
    }
  }

  lemma StartValues(s: State, o: Origin, p: Origin)
    requires p in s.inFlight.Values && s.nextRequest !in s.inFlight
    ensures p in s.inFlight[s.nextRequest := o].Values
  {
    var r :| r in s.inFlight && s.inFlight[r] == p;
    assert s.inFlight[s.nextRequest := o][r] == p;
  }

  // The first item of `rest` runs.
  lemma MarkKeepsInv(s: State, rest: seq<Item>)
    requires Inv(s, rest) && rest != []
    ensures Inv(Mark(s, rest[0].id), rest[1..])
  {
    var id, left := rest[0].id, rest[1..];
    var t := Mark(s, id);
    assert forall i :: 0 <= i < |left| ==> left[i] == rest[i + 1];
    assert s.places[id] == Held && id !in s.ran;
    forall o | o in t.waiting ensures WaitingFits(t, o) { assert WaitingFits(s, o); }
    forall r | r in t.inFlight ensures FlightFits(t, r) { assert FlightFits(s, r); }
    forall c | 0 <= c < |t.places| ensures PlaceFits(t, left, c) {
      assert PlaceFits(s, rest, c);
      HasIdTail(rest, c);
    }
  }

  // An item that nothing waits for runs at once.
  lemma MarkNewKeepsInv(s: State, rest: seq<Item>, m: Made)
    requires Inv(s, rest)
    ensures Inv(Mark(NewItem(s, m, Held), |s.places|), rest)
  {
    var t := Mark(NewItem(s, m, Held), |s.places|);
    assert |s.places| !in s.ran && t.places == s.places + [Done];
    forall o | o in t.waiting ensures WaitingFits(t, o) { assert WaitingFits(s, o); }
    forall r | r in t.inFlight ensures FlightFits(t, r) { assert FlightFits(s, r); }
    forall c | 0 <= c < |t.places| ensures PlaceFits(t, rest, c) {
      assert c < |s.places| ==> PlaceFits(s, rest, c);
    }
  }

  lemma HasIdTail(items: seq<Item>, c: nat)
    ensures items != [] && HasId(items, c) && items[0].id != c ==> HasId(items[1..], c)
  {
    if items != [] && HasId(items, c) && items[0].id != c {
      var i :| 0 <= i < |items| && items[i].id == c;
      assert items[1..][i - 1].id == c;
    }
  }

  lemma NotedKeepsInv(s: State, rest: seq<Item>, a: Ask)
    requires Inv(s, rest)
    ensures Inv(Noted(s, a), rest)
  {
    var t := Noted(s, a);
    forall o | o in t.waiting ensures WaitingFits(t, o) { assert WaitingFits(s, o); }
    forall r | r in t.inFlight ensures FlightFits(t, r) { assert FlightFits(s, r); }
    forall c | 0 <= c < |t.places| ensures PlaceFits(t, rest, c) { assert PlaceFits(s, rest, c); }
  }

  lemma {:induction false} RefreshKeepsInv(s: State, rest: seq<Item>, a: Ask)
    requires Inv(s, rest)
    ensures Inv(Refresh(s, a), rest)
    decreases a
  {
    var o := a.origin;
    if o.saves || a.found {
      if o in s.waiting {
        PushKeepsInv(s, rest, o, a.handler);
        assert WaitingFits(s, o);
        assert |Push(s, o, a.handler, false).waiting[o]| > 1;
      } else {
        StartKeepsInv(s, rest, o, a.handler);
        if o.saves { SaverKeepsInv(RequestFile(s, o, a.handler), rest, o); }
      }
    } else {
      var m := Made(o, a.handler, false);
      MarkNewKeepsInv(s, rest, m);
      RefreshAllKeepsInv(Mark(NewItem(s, m, Held), |s.places|), rest, a.handler.asks);
    }
  }

  lemma {:induction false} RefreshAllKeepsInv(s: State, rest: seq<Item>, asks: seq<Ask>)
    requires Inv(s, rest)
    ensures Inv(RefreshAll(s, asks), rest)
    decreases asks
  {
    if asks != [] {
      NotedKeepsInv(s, rest, asks[0]);
      RefreshKeepsInv(Noted(s, asks[0]), rest, asks[0]);
      RefreshAllKeepsInv(Refresh(Noted(s, asks[0]), asks[0]), rest, asks[1..]);
    }
  }

  lemma {:induction false} CallAllKeepsInv(s: State, items: seq<Item>)
    requires Inv(s, items)
    ensures Inv(CallAll(s, items), [])
    decreases |items|
  {
    if items != [] {
      MarkKeepsInv(s, items);
      RefreshAllKeepsInv(Mark(s, items[0].id), items[1..], items[0].handler.asks);
      CallAllKeepsInv(Call(s, items[0].id, items[0].handler), items[1..]);
    }
  }

  lemma TakeOutKeepsInv(s: State, r: nat)
    requires Inv(s, []) && r in s.inFlight
    ensures s.inFlight[r] in s.waiting && Inv(TakeOut(s, r), s.waiting[s.inFlight[r]])
  {
    assert FlightFits(s, r);
    var o := s.inFlight[r];
    var t := TakeOut(s, r);
    assert WaitingFits(s, o);
    forall p | p in t.waiting ensures WaitingFits(t, p) {
      assert WaitingFits(s, p);
      var q :| q in s.inFlight && s.inFlight[q] == p;
      assert q in t.inFlight;
    }
    forall q | q in t.inFlight ensures FlightFits(t, q) { assert FlightFits(s, q); }
    forall c | 0 <= c < |t.places| ensures PlaceFits(t, s.waiting[o], c) { assert PlaceFits(s, [], c); }
  }

  lemma AnswerKeepsInv(s: State, r: nat)
    requires Inv(s, []) && r in s.inFlight
    ensures s.inFlight[r] in s.waiting && Inv(Answer(s, r), [])
  {
    TakeOutKeepsInv(s, r);
    CallAllKeepsInv(TakeOut(s, r), s.waiting[s.inFlight[r]]);
  }

  // ---- The order in which a batch runs -----------------------------------------------------

  lemma {:induction false} RefreshExtends(s: State, a: Ask)
    ensures s.ran <= Refresh(s, a).ran
    decreases a
  {
    if !(a.origin.saves || a.found) {
      RefreshAllExtends(Mark(NewItem(s, Made(a.origin, a.handler, false), Held), |s.places|), a.handler.asks);
    }
  }

  lemma {:induction false} RefreshAllExtends(s: State, asks: seq<Ask>)
    ensures s.ran <= RefreshAll(s, asks).ran
    decreases asks
  {
    if asks != [] {
      RefreshExtends(Noted(s, asks[0]), asks[0]);
      RefreshAllExtends(Refresh(Noted(s, asks[0]), asks[0]), asks[1..]);
    }
  }

  // A handler runs at once exactly when what its origin names is unknown; otherwise it waits.
  lemma RunsAtOnceIff(s: State, rest: seq<Item>, a: Ask)
    requires Inv(s, rest)
    ensures var t, id := Refresh(s, a), |s.places|;
            && (id in t.ran <==> !a.origin.saves && !a.found)
            && (id in t.ran ==> s.ran + [id] <= t.ran)
            && (id !in t.ran ==> t.ran == s.ran && a.origin in t.waiting && HasId(t.waiting[a.origin], id))
  {
    var id, o := |s.places|, a.origin;
    assert id !in s.ran;
    if o.saves || a.found {
      var items := if o in s.waiting then s.waiting[o] else [];
      HasIdPush(items, Item(id, a.handler, false), id);
      HasIdPush(items + [Item(id, a.handler, false)], Item(id + 1, Handler([]), true), id);
    } else {
      var u := Mark(NewItem(s, Made(o, a.handler, false), Held), id);
      RefreshAllExtends(u, a.handler.asks);
      assert u.ran[|s.ran|] == id;
    }
  }

  // `at` gives the place in `ran`, from `from` on, of each item in turn.
  ghost predicate RanInTurn(ran: seq<nat>, from: nat, items: seq<Item>, at: seq<nat>) {
    && |at| == |items|
    && (forall i :: 0 <= i < |at| ==> from <= at[i] < |ran| && ran[at[i]] == items[i].id)
    && forall i, j :: 0 <= i < j < |at| ==> at[i] < at[j]
  }

  lemma {:induction false} CallAllInTurn(s: State, items: seq<Item>) returns (at: seq<nat>)
    ensures s.ran <= CallAll(s, items).ran
    ensures RanInTurn(CallAll(s, items).ran, |s.ran|, items, at)
    decreases |items|
  {
    at := [];
    if items != [] {
      var t := Call(s, items[0].id, items[0].handler);
      RefreshAllExtends(Mark(s, items[0].id), items[0].handler.asks);
      assert |s.ran| < |t.ran| && t.ran[|s.ran|] == items[0].id;
      var rest := CallAllInTurn(t, items[1..]);
      at := [|s.ran|] + rest;
    }
  }

  // An answer runs everything that waited for it, in the order it was pushed.
  lemma AnswerRunsTheBatch(s: State, r: nat) returns (at: seq<nat>)
    requires Inv(s, []) && r in s.inFlight
    ensures s.inFlight[r] in s.waiting
    ensures RanInTurn(Answer(s, r).ran, |s.ran|, s.waiting[s.inFlight[r]], at)
  {
    TakeOutKeepsInv(s, r);
    at := CallAllInTurn(TakeOut(s, r), s.waiting[s.inFlight[r]]);
  }

  // ---- What was asked for ------------------------------------------------------------------

  function NonSavers(made: seq<Made>): seq<Made> {
    if made == [] then []
    else NonSavers(made[..|made| - 1]) + if made[|made| - 1].saver then [] else [made[|made| - 1]]
  }

  function AsMade(asked: seq<Ask>): seq<Made> {
    if asked == [] then []
    else AsMade(asked[..|asked| - 1]) + [Made(asked[|asked| - 1].origin, asked[|asked| - 1].handler, false)]
  }

  lemma OneMoreMade(made: seq<Made>, m: Made)
    ensures NonSavers(made + [m]) == NonSavers(made) + if m.saver then [] else [m]
  {
    assert (made + [m])[..|made|] == made;
  }

  lemma OneMoreAsked(asked: seq<Ask>, a: Ask)
    ensures AsMade(asked + [a]) == AsMade(asked) + [Made(a.origin, a.handler, false)]
  {
    assert (asked + [a])[..|asked|] == asked;
  }

  // What the items that ran asked for.
  function Owed(made: seq<Made>, ran: seq<nat>): multiset<Ask> {
    if ran == [] then multiset{}
    else
      var c := ran[|ran| - 1];
      Owed(made, ran[..|ran| - 1]) + if c < |made| then multiset(made[c].handler.asks) else multiset{}
  }

  predicate AllMade(s: State) {
    |s.made| == |s.places| && forall c :: c in s.ran ==> c < |s.made|
  }

  lemma {:induction false} OwedExtends(made: seq<Made>, m: Made, ran: seq<nat>)
    requires forall c :: c in ran ==> c < |made|
    ensures Owed(made + [m], ran) == Owed(made, ran)
  {
    if ran != [] {
      var front := ran[..|ran| - 1];
      assert ran[|ran| - 1] in ran && forall c :: c in front ==> c in ran;
      OwedExtends(made, m, front);
    }
  }

  lemma OneMoreRan(made: seq<Made>, ran: seq<nat>, c: nat)
    requires c < |made|
    ensures Owed(made, ran + [c]) == Owed(made, ran) + multiset(made[c].handler.asks)
  {
    assert (ran + [c])[..|ran|] == ran;
  }

  // Between `s` and `t` what was asked for is what the items that ran asked for, and `more`.
  ghost predicate Asks(s: State, more: multiset<Ask>, t: State) {
    && AllMade(t) && s.made <= t.made
    && multiset(t.asked) + Owed(s.made, s.ran) == multiset(s.asked) + more + Owed(t.made, t.ran)
  }

  lemma NewItemAsks(s: State, m: Made, place: Place)
    requires AllMade(s)
    ensures Asks(s, multiset{}, NewItem(s, m, place))
    ensures NonSavers(NewItem(s, m, place).made) == NonSavers(s.made) + if m.saver then [] else [m]
  {
    OwedExtends(s.made, m, s.ran);
    OneMoreMade(s.made, m);
  }

  lemma RequestAsks(s: State, o: Origin, h: Handler)
    requires AllMade(s)
    ensures var t := RequestFile(s, o, h);
            && Asks(s, multiset{}, t) && t.asked == s.asked
            && NonSavers(t.made) == NonSavers(s.made) + [Made(o, h, false)]
  {
    NewItemAsks(s, Made(o, h, false), At(o));
  }

  lemma SaverAsks(s: State, o: Origin)
    requires AllMade(s)
    ensures var t := AddSaver(s, o);
            Asks(s, multiset{}, t) && t.asked == s.asked && NonSavers(t.made) == NonSavers(s.made)
  {
    NewItemAsks(s, Made(o, Handler([]), true), At(o));
  }

  lemma NotedAsks(s: State, a: Ask)
    requires AllMade(s)
    ensures Asks(s, multiset{a}, Noted(s, a))
    ensures AsMade(Noted(s, a).asked) == AsMade(s.asked) + [Made(a.origin, a.handler, false)]
  {
    OneMoreAsked(s.asked, a);
  }

  lemma AsksOn(s: State, a: multiset<Ask>, t: State, b: multiset<Ask>, u: State, c: multiset<Ask>)
    requires Asks(s, a, t) && Asks(t, b, u) && c == a + b
    ensures Asks(s, c, u)
  {
    Balanced(multiset(s.asked), Owed(s.made, s.ran), a, multiset(t.asked), Owed(t.made, t.ran), b,
             multiset(u.asked), Owed(u.made, u.ran));
  }

  lemma Balanced(
      a0: multiset<Ask>, o0: multiset<Ask>, m: multiset<Ask>, a1: multiset<Ask>, o1: multiset<Ask>,
      n: multiset<Ask>, a2: multiset<Ask>, o2: multiset<Ask>)
    requires a1 + o0 == a0 + m + o1 && a2 + o1 == a1 + n + o2
    ensures a2 + o0 == a0 + (m + n) + o2
  {
    forall x ensures (a2 + o0)[x] == (a0 + (m + n) + o2)[x] {
      assert (a1 + o0)[x] == (a0 + m + o1)[x] && (a2 + o1)[x] == (a1 + n + o2)[x];
    }
  }

  lemma MarkAsks(s: State, id: nat)
    requires AllMade(s) && id < |s.made|
    ensures var t := Mark(s, id);
            && AllMade(t) && t.made == s.made && t.asked == s.asked
            && Owed(t.made, t.ran) == Owed(s.made, s.ran) + multiset(s.made[id].handler.asks)
  {
    OneMoreRan(s.made, s.ran, id);
  }

  // Every ask makes one item.
  ghost predicate OneEach(s: State) {
    NonSavers(s.made) == AsMade(s.asked)
  }

  // One ask, noted and made.
  lemma {:induction false} AskedAsks(s: State, a: Ask)
    requires AllMade(s) && OneEach(s)
    ensures var t := Refresh(Noted(s, a), a); Asks(s, multiset{a}, t) && OneEach(t)
    decreases a, 1
  {
    NotedAsks(s, a);
    var t := Noted(s, a);
    RefreshAsks(t, a);
    AsksOn(s, multiset{a}, t, multiset{}, Refresh(t, a), multiset{a});
  }

  lemma {:induction false} RefreshAsks(s: State, a: Ask)
    requires AllMade(s) && AsMade(s.asked) == NonSavers(s.made) + [Made(a.origin, a.handler, false)]
    ensures var t := Refresh(s, a); Asks(s, multiset{}, t) && OneEach(t)
    decreases a, 0
  {
    var o := a.origin;
    if o.saves || a.found {
      var t := RequestFile(s, o, a.handler);
      RequestAsks(s, o, a.handler);
      SaverAsks(t, o);
      AsksOn(s, multiset{}, t, multiset{}, AddSaver(t, o), multiset{});
    } else {
      var m := Made(o, a.handler, false);
      var u := NewItem(s, m, Held);
      NewItemAsks(s, m, Held);
      CallAsks(u, |s.places|, a.handler);
      AsksOn(s, multiset{}, u, multiset{}, Refresh(s, a), multiset{});
    }
  }

  lemma {:induction false} CallAsks(s: State, id: nat, handler: Handler)
    requires AllMade(s) && OneEach(s) && id < |s.made| && s.made[id].handler == handler
    ensures var t := Call(s, id, handler); Asks(s, multiset{}, t) && OneEach(t)
    decreases handler, 2
  {
    var u := Mark(s, id);
    MarkAsks(s, id);
    RefreshAllAsks(u, handler.asks);
    MarkBalances(s, u, multiset(handler.asks), Call(s, id, handler));
  }

  lemma MarkBalances(s: State, u: State, more: multiset<Ask>, t: State)
    requires u.made == s.made && u.asked == s.asked && Owed(u.made, u.ran) == Owed(s.made, s.ran) + more
    requires Asks(u, more, t)
    ensures Asks(s, multiset{}, t)
  {
    var a, o, b, p := multiset(s.asked), Owed(s.made, s.ran), multiset(t.asked), Owed(t.made, t.ran);
    assert b + (o + more) == a + more + p;
    forall x ensures (b + o)[x] == (a + p)[x] {
      assert (b + (o + more))[x] == (a + more + p)[x];
    }
    assert b + o == a + multiset{} + p;
  }

  lemma FirstCounted(asks: seq<Ask>)
    requires asks != []
    ensures multiset(asks) == multiset{asks[0]} + multiset(asks[1..])
  {
    assert asks == [asks[0]] + asks[1..];
  }

  lemma {:induction false} RefreshAllAsks(s: State, asks: seq<Ask>)
    requires AllMade(s) && OneEach(s)
    ensures var t := RefreshAll(s, asks); Asks(s, multiset(asks), t) && OneEach(t)
    decreases asks, 0
  {
    if asks == [] {
      assert Asks(s, multiset([]), s);
    } else {
      var a, rest := asks[0], asks[1..];
      var t := Refresh(Noted(s, a), a);
      AskedAsks(s, a);
      RefreshAllAsks(t, rest);
      FirstCounted(asks);
      AsksOn(s, multiset{a}, t, multiset(rest), RefreshAll(t, rest), multiset(asks));
    }
  }

  lemma {:induction false} CallAllAsks(s: State, items: seq<Item>)
    requires AllMade(s) && OneEach(s) && Recorded(s, items)
    ensures var t := CallAll(s, items); Asks(s, multiset{}, t) && OneEach(t)
    decreases |items|
  {
    if items == [] {
      assert Asks(s, multiset{}, s);
    } else {
      var t := Call(s, items[0].id, items[0].handler);
      CallAsks(s, items[0].id, items[0].handler);
      forall i {:trigger items[1..][i]} | 0 <= i < |items| - 1
        ensures items[1..][i].id < |t.made| && t.made[items[1..][i].id].handler == items[1..][i].handler
             && t.made[items[1..][i].id].saver == items[1..][i].saver
      {
        assert items[1..][i] == items[i + 1];
      }
      CallAllAsks(t, items[1..]);
      AsksOn(s, multiset{}, t, multiset{}, CallAll(t, items[1..]), multiset{});
    }
  }

  lemma AnswerAsks(s: State, r: nat)
    requires Inv(s, []) && r in s.inFlight && OneEach(s)
    ensures s.inFlight[r] in s.waiting
    ensures Asks(s, multiset{}, Answer(s, r)) && OneEach(Answer(s, r))
  {
    TakeOutKeepsInv(s, r);
    var t := TakeOut(s, r);
    CallAllAsks(t, s.waiting[s.inFlight[r]]);
    assert Asks(s, multiset{}, t);
    AsksOn(s, multiset{}, t, multiset{}, Answer(s, r), multiset{});
  }

  // ---- Runs ----------------------------------------------------------------------------------

  // An answer is the request being done or failing.
  datatype Step = Asked(ask: Ask) | Answered(r: nat)

  ghost function Next(s: State, step: Step): (t: State)
    requires Inv(s, [])
    ensures Inv(t, [])
  {
    match step
    case Asked(a) => NotedKeepsInv(s, [], a); RefreshKeepsInv(Noted(s, a), [], a); Refresh(Noted(s, a), a)
    case Answered(r) => if r in s.inFlight then AnswerKeepsInv(s, r); Answer(s, r) else s
  }

  lemma InitialInv()
    ensures Inv(INITIAL, [])
  {
  }

  ghost function Run(steps: seq<Step>): (t: State)
    ensures Inv(t, [])
  {
    InitialInv();
    if steps == [] then INITIAL else Next(Run(steps[..|steps| - 1]), steps[|steps| - 1])
  }

  // In every run: the origins with handlers are those with a request on its way, one each;
  // nothing runs twice; every request was answered for a batch with its saver once.
  // With no request on its way, everything ever given has run.
  lemma EveryHandlerOnce(steps: seq<Step>)
    ensures var s := Run(steps);
            && (forall r, q :: r in s.inFlight && q in s.inFlight && s.inFlight[r] == s.inFlight[q] ==> r == q)
            && s.inFlight.Values == s.waiting.Keys
            && s.nextRequest == 1 + |s.answered| + |s.inFlight|
            && (forall i, j :: 0 <= i < j < |s.ran| ==> s.ran[i] != s.ran[j])
            && (forall b :: b in s.answered ==> GoodBatch(b.origin, b.items))
            && (s.inFlight == map[] ==> forall c: nat :: c in s.ran <==> c < |s.places|)
  {
    var s := Run(steps);
    forall r, q | r in s.inFlight && q in s.inFlight && s.inFlight[r] == s.inFlight[q] ensures r == q {
      assert FlightFits(s, r);
    }
    forall o ensures o in s.inFlight.Values <==> o in s.waiting.Keys {
      if o in s.waiting { assert WaitingFits(s, o); }
      if o in s.inFlight.Values {
        var r :| r in s.inFlight && s.inFlight[r] == o;
        assert FlightFits(s, r);
      }
    }
    if s.inFlight == map[] {
      assert s.waiting.Keys == {};
      forall c: nat ensures c in s.ran <==> c < |s.places| {
        if c < |s.places| {
          assert PlaceFits(s, [], c);
        }
      }
    }
  }

  // What the steps themselves ask for.
  function StepAsks(steps: seq<Step>): multiset<Ask> {
    if steps == [] then multiset{}
    else
      var step := steps[|steps| - 1];
      StepAsks(steps[..|steps| - 1]) + if step.Asked? then multiset{step.ask} else multiset{}
  }

  // Main result, for every run: what was asked for is what the steps asked for and what the
  // handlers that ran asked for. Each ask made one item, in this order, with its handler and
  // its origin; the other items are the savers. With no request on its way every ask has had
  // its handler run, once.
  lemma {:induction false} EveryAskRuns(steps: seq<Step>)
    ensures var s := Run(steps);
            && multiset(s.asked) == StepAsks(steps) + Owed(s.made, s.ran)
            && NonSavers(s.made) == AsMade(s.asked)
            && (s.inFlight == map[] ==>
                  && (forall c: nat :: c < |s.made| <==> c in s.ran)
                  && (forall i, j :: 0 <= i < j < |s.ran| ==> s.ran[i] != s.ran[j]))
  {
    var s := Run(steps);
    StepsAsk(steps);
    EveryHandlerOnce(steps);
    assert Owed(INITIAL.made, INITIAL.ran) == multiset{} && multiset(INITIAL.asked) == multiset{};
    NothingBefore(multiset(s.asked), StepAsks(steps), Owed(s.made, s.ran));
  }

  lemma NothingBefore(a: multiset<Ask>, b: multiset<Ask>, c: multiset<Ask>)
    requires a + multiset{} == multiset{} + b + c
    ensures a == b + c
  {
    assert a == a + multiset{} && b == multiset{} + b;
  }

  lemma RunIsMade(steps: seq<Step>)
    ensures AllMade(Run(steps))
  {
  }

  lemma {:induction false} StepsAsk(steps: seq<Step>)
    ensures Asks(INITIAL, StepAsks(steps), Run(steps)) && OneEach(Run(steps))
  {
    RunIsMade(steps);
    if steps == [] {
      assert Owed([], []) == multiset{};
    } else {
      var front, step := steps[..|steps| - 1], steps[|steps| - 1];
      StepsAsk(front);
      StepAsk(Run(front), step);
      AsksOn(INITIAL, StepAsks(front), Run(front), if step.Asked? then multiset{step.ask} else multiset{},
             Run(steps), StepAsks(steps));
    }
  }

  lemma StepAsk(s: State, step: Step)
    requires Inv(s, []) && OneEach(s)
    ensures var t := Next(s, step);
            Asks(s, if step.Asked? then multiset{step.ask} else multiset{}, t) && OneEach(t)
  {
    match step
    case Asked(a) => AskedAsks(s, a);
    case Answered(r) =>
      if r in s.inFlight { AnswerAsks(s, r); } else { assert Asks(s, multiset{}, s); }
  }

  // ---- The class -----------------------------------------------------------------------------

  class ApiWrap {
    var fileReferenceHandlers: map<Origin, seq<Item>>
    // The requests on their way, as the server knows them.
    var inFlight: map<nat, Origin>
    var nextRequest: nat
    // What was asked for, and what became of the handlers.
    var asked: seq<Ask>
    var made: seq<Made>
    var places: seq<Place>
    var ran: seq<nat>
    var answered: seq<Batch>

    constructor ()
      ensures View() == INITIAL
    {
      fileReferenceHandlers, inFlight, nextRequest := map[], map[], 1;
      asked, made, places, ran, answered := [], [], [], [], [];
    }

    function View(): State
      reads this
    {
      State(fileReferenceHandlers, inFlight, nextRequest, asked, made, places, ran, answered)
    }

    method RequestFileReference(o: Origin, handler: Handler)
      modifies this
      ensures View() == RequestFile(old(View()), o, handler)
    {
      var item := Item(|places|, handler, false);
      made, places := made + [Made(o, handler, false)], places + [At(o)];
      if o in fileReferenceHandlers {
        fileReferenceHandlers := fileReferenceHandlers[o := fileReferenceHandlers[o] + [item]];
      } else {
        fileReferenceHandlers := fileReferenceHandlers[o := [item]];
        inFlight := inFlight[nextRequest := o];
        nextRequest := nextRequest + 1;
        assert [] + [item] == [item];
      }
    }

    method RefreshFileReference(a: Ask)
      modifies this
      ensures View() == Refresh(old(View()), a)
      decreases a
    {
      var o := a.origin;
      if o.saves || a.found {
        RequestFileReference(o, a.handler);
        if o.saves && |fileReferenceHandlers[o]| == 1 {
          var item := Item(|places|, Handler([]), true);
          made, places := made + [Made(o, Handler([]), true)], places + [At(o)];
          fileReferenceHandlers := fileReferenceHandlers[o := fileReferenceHandlers[o] + [item]];
        }
      } else {
        var id := |places|;
        made, places := made + [Made(o, a.handler, false)], places + [Held];
        CallHandler(id, a.handler);
      }
    }

    method CallHandler(id: nat, handler: Handler)
      modifies this
      ensures View() == Call(old(View()), id, handler)
      decreases handler
    {
      places := if id < |places| then places[id := Done] else places;
      ran := ran + [id];
      ghost var s := View();
      var asks := handler.asks;
      var i := 0;
      while i < |asks|
        invariant 0 <= i <= |asks|
        invariant RefreshAll(View(), asks[i..]) == RefreshAll(s, asks)
      {
        asked := asked + [asks[i]];
        RefreshFileReference(asks[i]);
        i := i + 1;
      }
    }

    method RequestDone(r: nat)
      requires Inv(View(), []) && r in inFlight
      modifies this
      ensures old(View()).inFlight[r] in old(View()).waiting
      ensures View() == Answer(old(View()), r)
      ensures Inv(View(), [])
    {
      AnswerKeepsInv(View(), r);
      var o := inFlight[r];
      var handlers := fileReferenceHandlers[o];
      answered := answered + [Batch(o, handlers)];
      fileReferenceHandlers := fileReferenceHandlers - {o};
      inFlight := inFlight - {r};
      places := seq(|places|, i requires 0 <= i < |places| reads this =>
        if places[i] == At(o) then Held else places[i]);
      ghost var s := View();
      assert s == TakeOut(old(View()), r);
      var i := 0;
      while i < |handlers|
        invariant 0 <= i <= |handlers|
        invariant CallAll(View(), handlers[i..]) == CallAll(s, handlers)
      {
        CallHandler(handlers[i].id, handlers[i].handler);
        i := i + 1;
      }
    }
  }
}
