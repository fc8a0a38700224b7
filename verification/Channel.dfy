/**
 Reservations pushed by a booking channel. A delivery is recorded once per reference and
 handed to a background job, which books the stay and its postings in one transaction and
 then marks the record; the channel may redeliver, and may cancel. Requests and jobs of all
 references interleave.
 */
module Channel {
  import opened Options
  import opened Ledger

  /** A hotel, channel and external reference together. */
  type Key = string

  datatype RecordStatus = Received | Processed | Failed | CancelledByChannel
  datatype Record = Record(status: RecordStatus, stay: Option<nat>)

  /** What the channel sent: its price, the tax in it, and the channel's commission. */
  datatype Price = Price(tax: real, total: real, commission: real)

  /** `reversed` tells whether each reversal of the cancellation succeeded: the sale's, the commission's. */
  datatype Stay = Stay(key: Key, price: Price, cancelled: bool, checkedIn: bool, saleReversed: bool, feeReversed: bool)

  datatype Stage = Queued | Booked(stay: nat)
  datatype Job = Job(key: Key, stage: Stage)

  datatype State = State(records: map<Key, Record>, stays: seq<Stay>, jobs: map<nat, Job>, book: Book)

  /** The references of a stay: its confirmation number under FOLIO and under COMM. */
  function Folio(ref: nat -> string, i: nat): string {
    ref(2 * i)
  }

  function Comm(ref: nat -> string, i: nat): string {
    ref(2 * i + 1)
  }

  datatype Event =
    | Deliver(key: Key, job: nat)
    | JobFails(job: nat)
    | JobBooks(job: nat, price: Price)
    | JobMarks(job: nat)
    | JobMarkIsLost(job: nat)
    | CheckIn(stay: nat)
    | Cancel(key: Key, saleReverses: bool, feeReverses: bool)
    | Office(posting: Op)

  /** A redelivery of a processed reference is a duplicate; anything else is queued again. */
  function Delivered(st: State, key: Key, job: nat): State {
    var rec := if key in st.records then st.records[key] else Record(Received, None);
    if rec.status == Processed || job in st.jobs then st
    else st.(records := st.records[key := rec], jobs := st.jobs[job := Job(key, Queued)])
  }

  function Postings(book: Book, ref: nat -> string, i: nat, p: Price): Book {
    if AlreadyPosted(book.entries, Folio(ref, i)) then book
    else Step(Step(book, Post(Folio(ref, i), ChannelSale(p.tax, p.total))),
        Post(Comm(ref, i), ChannelFee(p.commission)))
  }

  /** The two reversals of a cancellation, each of which may fail. */
  function Reversals(book: Book, ref: nat -> string, i: nat, sale: bool, fee: bool): Book {
    Attempted(Attempted(book, Folio(ref, i), sale), Comm(ref, i), fee)
  }

  function Attempted(book: Book, reference: string, succeeds: bool): Book {
    if succeeds then ReverseIn(book, reference) else book
  }

  /** Only a processed record's stay is cancelled, unless its guest has arrived or it already is. */
  function Cancelled(st: State, ref: nat -> string, key: Key, saleReverses: bool, feeReverses: bool): State {
    if key !in st.records || st.records[key].stay.None? then st
    else
      var i := st.records[key].stay.value;
      if i >= |st.stays| || st.stays[i].checkedIn || st.stays[i].cancelled then st
      else
        State(st.records[key := st.records[key].(status := CancelledByChannel)],
              st.stays[i := st.stays[i].(cancelled := true, saleReversed := saleReverses, feeReversed := feeReverses)],
              st.jobs, Reversals(st.book, ref, i, saleReverses, feeReverses))
  }

  function Next(st: State, e: Event, ref: nat -> string): State {
    match e
    case Deliver(key, job) => Delivered(st, key, job)
    case JobFails(j) =>
      if j !in st.jobs || !st.jobs[j].stage.Queued? || st.jobs[j].key !in st.records then st
      else
        var key := st.jobs[j].key;
        st.(jobs := st.jobs - {j}, records := st.records[key := st.records[key].(status := Failed)])
    case JobBooks(j, price) =>
      if j !in st.jobs || !st.jobs[j].stage.Queued? then st
      else
        var i := |st.stays|;
        st.(stays := st.stays + [Stay(st.jobs[j].key, price, false, false, false, false)],
            jobs := st.jobs[j := st.jobs[j].(stage := Booked(i))],
            book := Postings(st.book, ref, i, price))
    case JobMarks(j) =>
      if j !in st.jobs || !st.jobs[j].stage.Booked? then st
      else st.(jobs := st.jobs - {j},
          records := st.records[st.jobs[j].key := Record(Processed, Some(st.jobs[j].stage.stay))])
    case JobMarkIsLost(j) => if j in st.jobs && st.jobs[j].stage.Booked? then st.(jobs := st.jobs - {j}) else st
    case CheckIn(i) => if i < |st.stays| then st.(stays := st.stays[i := st.stays[i].(checkedIn := true)]) else st
    case Cancel(key, sale, fee) => Cancelled(st, ref, key, sale, fee)
    case Office(op) => st.(book := Step(st.book, op))
  }

  function Follow(st: State, events: seq<Event>, ref: nat -> string): State {
    if events == [] then st else Next(Follow(st, events[..|events| - 1], ref), events[|events| - 1], ref)
  }

  /** The handler and its background job, as they change the rows they share. */
  class ChannelIngest {
    var records: map<Key, Record>
    var stays: seq<Stay>
    var jobs: map<nat, Job>
    var book: Book

    ghost function Value(): State
      reads this
    {
      State(records, stays, jobs, book)
    }

    /** Records the delivery and queues its job, unless the reference was already processed. */
    method Ingest(key: Key, job: nat, ref: nat -> string) returns (duplicate: Option<nat>)
      requires job !in jobs
      modifies this
      ensures Value() == Next(old(Value()), Deliver(key, job), ref)
      ensures job !in jobs <==> key in old(records) && old(records)[key].status == Processed
      ensures job !in jobs ==> duplicate == old(records)[key].stay
    {
      if key !in records {
        records := records[key := Record(Received, None)];
      }
      if records[key].status == Processed {
        return records[key].stay;
      }
      assert records == old(records)[key := records[key]];
      jobs := jobs[job := Job(key, Queued)];
      duplicate := None;
    }

    /** The job's transaction: the stay, its receivable and its commission, all or none. */
    method Process(job: nat, price: Price, ref: nat -> string)
      requires job in jobs && jobs[job].stage.Queued?
      modifies this
      ensures Value() == Next(old(Value()), JobBooks(job, price), ref)
    {
      var i := |stays|;
      stays := stays + [Stay(jobs[job].key, price, false, false, false, false)];
      jobs := jobs[job := jobs[job].(stage := Booked(i))];
      if !AlreadyPosted(book.entries, Folio(ref, i)) {
        book := Step(book, Post(Folio(ref, i), ChannelSale(price.tax, price.total)));
        book := Step(book, Post(Comm(ref, i), ChannelFee(price.commission)));
      }
    }

    method CancelBooking(key: Key, saleReverses: bool, feeReverses: bool, ref: nat -> string) returns (cancelled: bool)
      modifies this
      ensures Value() == Next(old(Value()), Cancel(key, saleReverses, feeReverses), ref)
      ensures cancelled <==> stays != old(stays)
    {
      if key !in records || records[key].stay.None? {
        return false;
      }
      var i := records[key].stay.value;
      if i >= |stays| || stays[i].checkedIn || stays[i].cancelled {
        return false;
      }
      stays := stays[i := stays[i].(cancelled := true, saleReversed := saleReverses, feeReversed := feeReverses)];
      if saleReverses {
        book := ReverseIn(book, Folio(ref, i));
      }
      if feeReverses {
        book := ReverseIn(book, Comm(ref, i));
      }
      records := records[key := records[key].(status := CancelledByChannel)];
      assert stays[i] != old(stays)[i];
      cancelled := true;
    }
  }

  // ---------- one reservation per reference ----------

  ghost predicate Busy(jobs: map<nat, Job>, key: Key) {
    exists j :: j in jobs && jobs[j].key == key
  }

  /** Each delivery's job finishes and is marked before the same reference arrives again. */
  ghost predicate InTurn(st: State, e: Event) {
    && (e.Deliver? ==> !Busy(st.jobs, e.key))
    && !e.JobMarkIsLost?
  }

  /** Why a live stay of a reference exists: its job has just booked it, or its record says so. */
  ghost predicate Accounted(st: State, i: nat)
    requires i < |st.stays|
  {
    var key := st.stays[i].key;
    || (exists j :: j in st.jobs && st.jobs[j] == Job(key, Booked(i)))
    || (!Busy(st.jobs, key) && key in st.records && st.records[key] == Record(Processed, Some(i)))
  }

  ghost predicate Sound(st: State) {
    && (forall j, k :: j in st.jobs && k in st.jobs && st.jobs[j].key == st.jobs[k].key ==> j == k)
    && (forall j :: j in st.jobs ==> st.jobs[j].key in st.records)
    && (forall j :: j in st.jobs && st.jobs[j].stage.Booked? ==>
          st.jobs[j].stage.stay < |st.stays| && st.stays[st.jobs[j].stage.stay].key == st.jobs[j].key)
    && (forall key :: key in st.records && st.records[key].stay.Some? ==>
          st.records[key].stay.value < |st.stays| && st.stays[st.records[key].stay.value].key == key)
    && (forall i :: 0 <= i < |st.stays| && !st.stays[i].cancelled ==> Accounted(st, i))
  }

  lemma DeliverIsSound(st: State, key: Key, job: nat)
    requires Sound(st) && !Busy(st.jobs, key)
    ensures Sound(Delivered(st, key, job))
  {
    var st' := Delivered(st, key, job);
    if st' != st {
      forall i | 0 <= i < |st'.stays| && !st'.stays[i].cancelled
        ensures Accounted(st', i)
      {
        assert Accounted(st, i);
        var k := st.stays[i].key;
        if j :| j in st.jobs && st.jobs[j] == Job(k, Booked(i)) {
          assert st'.jobs[j] == Job(k, Booked(i));
        } else {
          assert k != key;
          assert Busy(st'.jobs, k) ==> Busy(st.jobs, k);
        }
      }
    }
  }

  lemma BookIsSound(st: State, j: nat, ref: nat -> string, e: Event)
    requires Sound(st) && e.JobBooks? && e.job == j && j in st.jobs && st.jobs[j].stage.Queued?
    ensures Sound(Next(st, e, ref))
  {
    var st' := Next(st, e, ref);
    assert st'.jobs[j] == Job(st.jobs[j].key, Booked(|st.stays|));
    forall i | 0 <= i < |st'.stays| && !st'.stays[i].cancelled
      ensures Accounted(st', i)
    {
      if i < |st.stays| {
        BookKeepsOthers(st, st', j, i);
      }
    }
  }

  lemma BookKeepsOthers(st: State, st': State, j: nat, i: nat)
    requires Sound(st) && j in st.jobs && st.jobs[j].stage.Queued? && i < |st.stays| && !st.stays[i].cancelled
    requires i < |st'.stays| && st'.stays[i] == st.stays[i] && st'.records == st.records
    requires st'.jobs == st.jobs[j := Job(st.jobs[j].key, Booked(|st.stays|))]
    ensures Accounted(st', i)
  {
    assert Accounted(st, i);
    var k := st.stays[i].key;
    assert k != st.jobs[j].key by {
      assert Busy(st.jobs, st.jobs[j].key);
    }
    if x :| x in st.jobs && st.jobs[x] == Job(k, Booked(i)) {
      assert st'.jobs[x] == Job(k, Booked(i));
    } else {
      assert Busy(st'.jobs, k) ==> Busy(st.jobs, k);
    }
  }

  /** A stay of another reference, or of no finished job, is accounted for as before. */
  lemma JobEndKeeps(st: State, st': State, job: nat, i: nat)
    requires Sound(st) && job in st.jobs && st'.jobs == st.jobs - {job} && st'.stays == st.stays
    requires i < |st.stays| && !st.stays[i].cancelled && st.stays[i].key != st.jobs[job].key
    requires forall k :: k in st.records && k != st.jobs[job].key ==>
               k in st'.records && st'.records[k] == st.records[k]
    ensures Accounted(st', i)
  {
    assert Accounted(st, i);
    var k := st.stays[i].key;
    if x :| x in st.jobs && st.jobs[x] == Job(k, Booked(i)) {
      assert st'.jobs[x] == Job(k, Booked(i));
    } else {
      assert Busy(st'.jobs, k) ==> Busy(st.jobs, k);
    }
  }

  lemma JobEndIsSound(st: State, ref: nat -> string, e: Event)
    requires Sound(st) && (e.JobFails? || e.JobMarks?)
    ensures Sound(Next(st, e, ref))
  {
    var st' := Next(st, e, ref);
    if st' != st {
      var key := st.jobs[e.job].key;
      assert Busy(st.jobs, key);
      assert !Busy(st'.jobs, key);
      forall i | 0 <= i < |st'.stays| && !st'.stays[i].cancelled
        ensures Accounted(st', i)
      {
        if st.stays[i].key != key {
          JobEndKeeps(st, st', e.job, i);
        } else {
          assert Accounted(st, i);
        }
      }
    }
  }

  lemma CancelIsSound(st: State, ref: nat -> string, key: Key, sale: bool, fee: bool)
    requires Sound(st)
    ensures Sound(Cancelled(st, ref, key, sale, fee))
  {
    var st' := Cancelled(st, ref, key, sale, fee);
    if st' != st {
      var c := st.records[key].stay.value;
      forall i | 0 <= i < |st'.stays| && !st'.stays[i].cancelled
        ensures Accounted(st', i)
      {
        assert i != c && Accounted(st, i) && Accounted(st, c);
        var k := st.stays[i].key;
        if x :| x in st.jobs && st.jobs[x] == Job(k, Booked(i)) {
          assert st'.jobs[x] == Job(k, Booked(i));
        } else {
          assert k != key;
        }
      }
    }
  }

  lemma CheckInIsSound(st: State, i: nat)
    requires Sound(st) && i < |st.stays|
    ensures Sound(st.(stays := st.stays[i := st.stays[i].(checkedIn := true)]))
  {
    var st' := st.(stays := st.stays[i := st.stays[i].(checkedIn := true)]);
    forall k | 0 <= k < |st'.stays| && !st'.stays[k].cancelled
      ensures Accounted(st', k)
    {
      assert Accounted(st, k);
    }
  }

  lemma OfficeIsSound(st: State, book: Book)
    requires Sound(st)
    ensures Sound(st.(book := book))
  {
    forall k | 0 <= k < |st.stays| && !st.stays[k].cancelled
      ensures Accounted(st.(book := book), k)
    {
      assert Accounted(st, k);
    }
  }

  lemma StepIsSound(st: State, e: Event, ref: nat -> string)
    requires Sound(st) && InTurn(st, e)
    ensures Sound(Next(st, e, ref))
  {
    match e
    case Deliver(key, job) => DeliverIsSound(st, key, job);
    case JobFails(_) => JobEndIsSound(st, ref, e);
    case JobBooks(j, _) =>
      if j in st.jobs && st.jobs[j].stage.Queued? { BookIsSound(st, j, ref, e); }
    case JobMarks(_) => JobEndIsSound(st, ref, e);
    case CheckIn(i) =>
      if i < |st.stays| { CheckInIsSound(st, i); }
    case Cancel(key, sale, fee) => CancelIsSound(st, ref, key, sale, fee);
    case Office(op) => OfficeIsSound(st, Step(st.book, op));
    case JobMarkIsLost(_) =>
  }

  ghost predicate AllInTurn(st: State, events: seq<Event>, ref: nat -> string) {
    events == [] ||
    var rest := events[..|events| - 1];
    AllInTurn(st, rest, ref) && InTurn(Follow(st, rest, ref), events[|events| - 1])
  }

  lemma {:induction false} RunIsSound(st: State, events: seq<Event>, ref: nat -> string)
    requires Sound(st) && AllInTurn(st, events, ref)
    ensures Sound(Follow(st, events, ref))
  {
    if events != [] {
      RunIsSound(st, events[..|events| - 1], ref);
      StepIsSound(Follow(st, events[..|events| - 1], ref), events[|events| - 1], ref);
    }
  }

  /** No reference has two live stays. */
  ghost predicate OneLive(st: State) {
    forall i, k :: 0 <= i < |st.stays| && 0 <= k < |st.stays| && Rivals(st.stays[i], st.stays[k]) ==> i == k
  }

  predicate Rivals(a: Stay, b: Stay) {
    !a.cancelled && !b.cancelled && a.key == b.key
  }

  lemma SoundIsOneLive(st: State)
    requires Sound(st)
    ensures OneLive(st)
  {
    forall i, k | 0 <= i < |st.stays| && 0 <= k < |st.stays| && Rivals(st.stays[i], st.stays[k])
      ensures i == k
    {
      assert Accounted(st, i) && Accounted(st, k);
    }
  }

  /**
   In every run where each delivery is finished and marked before its reference comes again,
   any deliveries, failures and cancellations leave at most one live reservation per reference.
   */
  lemma OneReservationPerReference(book: Book, events: seq<Event>, ref: nat -> string)
    requires AllInTurn(State(map[], [], map[], book), events, ref)
    ensures OneLive(Follow(State(map[], [], map[], book), events, ref))
  {
    RunIsSound(State(map[], [], map[], book), events, ref);
    SoundIsOneLive(Follow(State(map[], [], map[], book), events, ref));
  }

  // ---------- and only then ----------

  /** A stay that is booked and not yet marked is live, and no record points at it. */
  ghost predicate Unmarked(st: State) {
    forall j :: j in st.jobs && st.jobs[j].stage.Booked? ==>
      var i := st.jobs[j].stage.stay;
      && i < |st.stays| && !st.stays[i].cancelled
      && forall key :: key in st.records ==> st.records[key].stay != Some(i)
  }

  /** No reference is processed while a job of it is under way. */
  ghost predicate Pending(st: State) {
    forall j :: j in st.jobs ==> st.jobs[j].key in st.records && st.records[st.jobs[j].key].status != Processed
  }

  ghost predicate Whole(st: State) {
    Sound(st) && Unmarked(st) && Pending(st)
  }

  lemma StepIsPending(st: State, e: Event, ref: nat -> string)
    requires Sound(st) && Pending(st)
    ensures Pending(Next(st, e, ref))
  {
  }

  lemma JobEndIsUnmarked(st: State, e: Event, ref: nat -> string)
    requires Sound(st) && Unmarked(st) && (e.JobFails? || e.JobMarks? || e.JobMarkIsLost?)
    ensures Unmarked(Next(st, e, ref))
  {
  }

  lemma BookIsUnmarked(st: State, e: Event, ref: nat -> string)
    requires Sound(st) && Unmarked(st) && (e.JobBooks? || e.CheckIn?)
    ensures Unmarked(Next(st, e, ref))
  {
  }

  lemma CancelIsUnmarked(st: State, e: Event, ref: nat -> string)
    requires Sound(st) && Unmarked(st) && (e.Cancel? || e.Deliver? || e.Office?)
    ensures Unmarked(Next(st, e, ref))
  {
  }

  lemma StepIsUnmarked(st: State, e: Event, ref: nat -> string)
    requires Sound(st) && Unmarked(st)
    ensures Unmarked(Next(st, e, ref))
  {
    if e.JobFails? || e.JobMarks? || e.JobMarkIsLost? {
      JobEndIsUnmarked(st, e, ref);
    } else if e.JobBooks? || e.CheckIn? {
      BookIsUnmarked(st, e, ref);
    } else {
      CancelIsUnmarked(st, e, ref);
    }
  }

  lemma {:induction false} RunIsWhole(st: State, events: seq<Event>, ref: nat -> string)
    requires Whole(st) && AllInTurn(st, events, ref)
    ensures Whole(Follow(st, events, ref))
  {
    if events != [] {
      var before, e := Follow(st, events[..|events| - 1], ref), events[|events| - 1];
      RunIsWhole(st, events[..|events| - 1], ref);
      StepIsSound(before, e, ref);
      StepIsUnmarked(before, e, ref);
      StepIsPending(before, e, ref);
    }
  }

  /** Every continuation in turn keeps to one live stay a reference. */
  ghost predicate Safe(st: State, ref: nat -> string) {
    forall events: seq<Event> :: AllInTurn(st, events, ref) ==> OneLive(Follow(st, events, ref))
  }

  lemma WholeIsSafe(st: State, ref: nat -> string)
    requires Whole(st)
    ensures Safe(st, ref)
  {
    forall events: seq<Event> | AllInTurn(st, events, ref)
      ensures OneLive(Follow(st, events, ref))
    {
      RunIsWhole(st, events, ref);
      SoundIsOneLive(Follow(st, events, ref));
    }
  }

  lemma RunsOfTwo(st: State, a: Event, b: Event, ref: nat -> string)
    ensures Follow(st, [a], ref) == Next(st, a, ref)
    ensures Follow(st, [a, b], ref) == Next(Next(st, a, ref), b, ref)
    ensures AllInTurn(st, [a], ref) <==> InTurn(st, a)
    ensures AllInTurn(st, [a, b], ref) <==> InTurn(st, a) && InTurn(Next(st, a, ref), b)
  {
    assert [a][..0] == [] && [a, b][..1] == [a];
  }

  /** A queued job of a reference that has a live stay books a second one. */
  lemma SecondStay(st: State, i: nat, job: nat, p: Price, ref: nat -> string)
    requires i < |st.stays| && !st.stays[i].cancelled && job in st.jobs && st.jobs[job] == Job(st.stays[i].key, Queued)
    ensures !OneLive(Next(st, JobBooks(job, p), ref)) && InTurn(st, JobBooks(job, p))
  {
    var st' := Next(st, JobBooks(job, p), ref);
    assert Rivals(st'.stays[i], st'.stays[|st.stays|]);
  }

  /** Two jobs of one reference under way book two stays between them. */
  lemma OverlapIsUnsafe(st: State, j: nat, job: nat, ref: nat -> string)
    requires Unmarked(st) && j in st.jobs && job in st.jobs && j != job
    requires st.jobs[job] == Job(st.jobs[j].key, Queued)
    requires st.jobs[j].stage.Booked? ==>
               st.jobs[j].stage.stay < |st.stays| && st.stays[st.jobs[j].stage.stay].key == st.jobs[j].key
    ensures !Safe(st, ref)
  {
    var p := Price(0.0, 0.0, 0.0);
    RunsOfTwo(st, JobBooks(j, p), JobBooks(job, p), ref);
    RunsOfTwo(st, JobBooks(job, p), JobBooks(job, p), ref);
    if st.jobs[j].stage.Booked? {
      SecondStay(st, st.jobs[j].stage.stay, job, p, ref);
      assert !OneLive(Follow(st, [JobBooks(job, p)], ref));
    } else {
      SecondStay(Next(st, JobBooks(j, p), ref), |st.stays|, job, p, ref);
      assert !OneLive(Follow(st, [JobBooks(j, p), JobBooks(job, p)], ref));
    }
  }

  lemma OutOfTurnDelivery(st: State, key: Key, job: nat, ref: nat -> string)
    requires Whole(st) && Busy(st.jobs, key) && Delivered(st, key, job) != st
    ensures !Safe(Delivered(st, key, job), ref)
  {
    var j :| j in st.jobs && st.jobs[j].key == key;
    var st' := Delivered(st, key, job);
    StepIsUnmarked(st, Deliver(key, job), ref);
    OverlapIsUnsafe(st', j, job, ref);
  }

  /** A stay whose mark is lost is forgotten: the reference comes again, in turn, and is booked again. */
  lemma LostMarkBooksTwice(st: State, j: nat, ref: nat -> string)
    requires Whole(st) && j in st.jobs && st.jobs[j].stage.Booked?
    ensures !Safe(Next(st, JobMarkIsLost(j), ref), ref)
  {
    var p, key, i := Price(0.0, 0.0, 0.0), st.jobs[j].key, st.jobs[j].stage.stay;
    var lost := Next(st, JobMarkIsLost(j), ref);
    assert !Busy(lost.jobs, key);
    RunsOfTwo(lost, Deliver(key, j), JobBooks(j, p), ref);
    SecondStay(Next(lost, Deliver(key, j), ref), i, j, p, ref);
    assert !OneLive(Follow(lost, [Deliver(key, j), JobBooks(j, p)], ref));
  }

  /**
   In every state that runs in turn lead to, an event leaves one live stay a reference in every
   continuation in turn exactly when it is in turn itself, or does nothing.
   */
  lemma InTurnIsExact(st: State, e: Event, ref: nat -> string)
    requires Whole(st)
    ensures Safe(Next(st, e, ref), ref) <==> InTurn(st, e) || Next(st, e, ref) == st
  {
    if InTurn(st, e) {
      StepIsSound(st, e, ref);
      StepIsUnmarked(st, e, ref);
      StepIsPending(st, e, ref);
      WholeIsSafe(Next(st, e, ref), ref);
    } else if Next(st, e, ref) == st {
      WholeIsSafe(st, ref);
    } else if e.Deliver? {
      OutOfTurnDelivery(st, e.key, e.job, ref);
    } else {
      LostMarkBooksTwice(st, e.job, ref);
    }
  }

  /** From the start, two deliveries queued before either job runs. */
  lemma OverlappingDeliveriesBookTwice(book: Book, key: Key, p: Price, ref: nat -> string)
    ensures var start := State(map[], [], map[], book);
            var st := Next(Next(start, Deliver(key, 1), ref), Deliver(key, 2), ref);
            !Safe(st, ref) && |Next(Next(st, JobBooks(1, p), ref), JobBooks(2, p), ref).stays| == 2
  {
    var start := State(map[], [], map[], book);
    var once := Next(start, Deliver(key, 1), ref);
    assert Whole(start);
    StepIsSound(start, Deliver(key, 1), ref);
    StepIsUnmarked(start, Deliver(key, 1), ref);
    StepIsPending(start, Deliver(key, 1), ref);
    assert once.jobs[1].key == key;
    OutOfTurnDelivery(once, key, 2, ref);
  }

  /** A cancellation cancels the recorded stay exactly when its guest has not arrived, and no other stay. */
  lemma CancelsExactly(st: State, ref: nat -> string, key: Key, sale: bool, fee: bool, i: nat)
    requires i < |st.stays|
    ensures var st' := Next(st, Cancel(key, sale, fee), ref);
            var recorded := key in st.records && st.records[key].stay == Some(i);
            && |st'.stays| == |st.stays|
            && (st'.stays[i].cancelled <==> st.stays[i].cancelled || (recorded && !st.stays[i].checkedIn))
            && (recorded && !st.stays[i].cancelled && st'.stays[i].cancelled ==>
                  st'.records[key].status == CancelledByChannel
                  && st'.stays[i].saleReversed == sale && st'.stays[i].feeReversed == fee)
            && st'.stays[i].price == st.stays[i].price && st'.stays[i].checkedIn == st.stays[i].checkedIn
  {
  }

  /** A new reference, delivered and processed, is recorded with the one stay booked for it. */
  lemma DeliveryIsBooked(st: State, ref: nat -> string, key: Key, job: nat, price: Price)
    requires job !in st.jobs && !(key in st.records && st.records[key].status == Processed)
    ensures var st' := Next(Next(Next(st, Deliver(key, job), ref), JobBooks(job, price), ref), JobMarks(job), ref);
            && key in st'.records && st'.records[key] == Record(Processed, Some(|st.stays|))
            && |st'.stays| == |st.stays| + 1 && st'.stays[..|st.stays|] == st.stays
            && st'.stays[|st.stays|] == Stay(key, price, false, false, false, false)
            && st'.jobs == st.jobs
  {
  }
}
