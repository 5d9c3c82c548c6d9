/** The transaction indexer's buffer: transactions wait, slot by slot, until their
    slot is reported confirmed or finalized, and are dropped once it is too old. */
module SlotBuffer {
  import opened Results

  datatype Transaction = Transaction(slot: nat, signature: string, addresses: seq<string>)

  datatype Commitment = Processed | Confirmed | Finalized

  /** A stream update; a transaction comes with its signature and whether its
      metadata is complete. */
  datatype Update =
    | TransactionUpdate(slot: nat, info: Option<(string, bool)>)
    | SlotUpdate(slot: nat, status: Commitment)
    | Ping
    | Unknown

  // ---------------------------------------------------------- ordered sets

  lemma {:induction false} FindLeast(s: set<nat>) returns (x: nat)
    requires s != {}
    ensures x in s && forall y :: y in s ==> x <= y
  {
    x :| x in s;
    if s != {x} {
      var z := FindLeast(s - {x});
      forall y | y in s
        ensures (if x < z then x else z) <= y
      {
        assert y == x || y in s - {x};
      }
      x := if x < z then x else z;
    }
  }

  lemma LeastExists(s: set<nat>)
    requires s != {}
    ensures exists x :: x in s && forall y :: y in s ==> x <= y
  {
    var x := FindLeast(s);
  }

  function Least(s: set<nat>): (x: nat)
    requires s != {}
    ensures x in s && forall y :: y in s ==> x <= y
  {
    LeastExists(s);
    var x :| x in s && forall y :: y in s ==> x <= y;
    x
  }

  lemma {:induction false} FindGreatest(s: set<nat>) returns (x: nat)
    requires s != {}
    ensures x in s && forall y :: y in s ==> y <= x
  {
    x :| x in s;
    if s != {x} {
      var z := FindGreatest(s - {x});
      forall y | y in s
        ensures y <= if x < z then z else x
      {
        assert y == x || y in s - {x};
      }
      x := if x < z then z else x;
    }
  }

  lemma GreatestExists(s: set<nat>)
    requires s != {}
    ensures exists x :: x in s && forall y :: y in s ==> y <= x
  {
    var x := FindGreatest(s);
  }

  function Greatest(s: set<nat>): (x: nat)
    requires s != {}
    ensures x in s && forall y :: y in s ==> y <= x
  {
    GreatestExists(s);
    var x :| x in s && forall y :: y in s ==> y <= x;
    x
  }

  // ---------------------------------------------------------------- buffer

  /** The transactions under `keys`, in the order of their slots. */
  function Flatten(queue: map<nat, seq<Transaction>>, keys: set<nat>): seq<Transaction>
    requires keys <= queue.Keys
    decreases |keys|
  {
    if keys == {} then [] else
    var k := Least(keys);
    queue[k] + Flatten(queue, keys - {k})
  }

  datatype Buffer = Buffer(queue: map<nat, seq<Transaction>>, slots: set<nat>) {

    function Queued(slot: nat): seq<Transaction> {
      if slot in queue then queue[slot] else []
    }

    function Receive(slot: nat, txs: seq<Transaction>): Buffer {
      this.(queue := queue[slot := Queued(slot) + txs])
    }

    function Report(slot: nat, size: nat): Buffer {
      var more := slots + {slot};
      this.(slots := if slot !in slots && size < |more| then more - {Least(more)} else more)
    }

    function Apply(update: Update, filters: seq<string>, size: nat): Buffer {
      match update
      case TransactionUpdate(slot, Some((signature, complete))) =>
        Receive(slot, if complete then [Transaction(slot, signature, filters)] else [])
      case SlotUpdate(slot, status) => if status == Processed then this else Report(slot, size)
      case _ => this
    }

    /** Older than every slot retained. */
    predicate Expired(slot: nat) {
      slots != {} && slot < Least(slots)
    }

    function Stale(): set<nat> {
      set k | k in queue && Expired(k)
    }

    function Ready(): set<nat> {
      queue.Keys * slots
    }

    function Drained(): Buffer {
      this.(queue := queue - Stale() - slots)
    }

    function Published(): seq<Transaction> {
      Flatten(queue, Ready())
    }

    function Discarded(): seq<Transaction> {
      Flatten(queue, Stale())
    }

    /** Every transaction waits under its own slot. */
    predicate Filed() {
      forall k, i :: k in queue && 0 <= i < |queue[k]| ==> queue[k][i].slot == k
    }
  }

  /** The queue and the set of slots that two tasks share; each method is one
      critical section. */
  class Context {
    var queue: map<nat, seq<Transaction>>
    var slots: set<nat>
    const slotsBufferSize: nat

    function Contents(): Buffer
      reads this
    {
      Buffer(queue, slots)
    }

    constructor (size: nat)
      ensures Contents() == Buffer(map[], {}) && slotsBufferSize == size
    {
      queue, slots, slotsBufferSize := map[], {}, size;
    }

    method ProcessUpdate(update: Update, filters: seq<string>) returns (r: Result<()>)
      modifies this
      ensures Contents() == old(Contents()).Apply(update, filters, slotsBufferSize)
      ensures r.Err? <==> update.TransactionUpdate? && update.info == None
    {
      r := Ok(());
      match update
      case TransactionUpdate(slot, None) =>
        return Err(MissingTransaction);
      case TransactionUpdate(slot, Some((signature, complete))) =>
        if slot !in queue {
          queue := queue[slot := []];
        }
        if complete {
          queue := queue[slot := queue[slot] + [Transaction(slot, signature, filters)]];
        }
        assert old(Contents()).Queued(slot) + [] == old(Contents()).Queued(slot);
        assert queue == old(Contents()).Apply(update, filters, slotsBufferSize).queue;
      case SlotUpdate(slot, status) =>
        if status == Confirmed || status == Finalized {
          var inserted := slot !in slots;
          slots := slots + {slot};
          if inserted && slotsBufferSize < |slots| {
            slots := slots - {Least(slots)};
          }
        }
      case Ping =>
      case Unknown =>
    }

    /** Drop what is too old. */
    method DropStale()
      modifies this`queue
      ensures queue == old(queue) - old(Contents()).Stale()
    {
      if slots != {} {
        var oldest := Least(slots);
        queue := map slot | slot in queue && oldest <= slot :: queue[slot];
      }
    }

    /** Take what is confirmed out of the queue, in the order of slots and stopping
        at the first slot after the last confirmed one. */
    method TakeReady() returns (published: seq<Transaction>)
      modifies this`queue
      ensures published == old(Contents()).Published()
      ensures queue == old(queue) - slots
    {
      published := [];
      var waiting, todo := queue, queue.Keys;
      while todo != {}
        invariant todo <= waiting.Keys && queue == waiting - ((waiting.Keys - todo) * slots)
        invariant published + Flatten(waiting, todo * slots) == old(Contents()).Published()
      {
        var slot := Least(todo);
        if slots != {} && Greatest(slots) < slot {
          break;
        }
        NextReady(waiting, todo, slots);
        if slot in slots {
          published := published + waiting[slot];
          queue := queue - {slot};
        }
        todo := todo - {slot};
      }
      assert todo * slots == {};
    }

    method Drain() returns (published: seq<Transaction>)
      modifies this`queue
      ensures published == old(Contents()).Published()
      ensures Contents() == old(Contents()).Drained()
    {
      DropStale();
      ghost var before := old(Contents());
      assert Contents().Ready() == before.Ready();
      FlattenSame(before.queue, queue, before.Ready());
      published := TakeReady();
    }
  }

  lemma {:induction false} FlattenSame(q1: map<nat, seq<Transaction>>, q2: map<nat, seq<Transaction>>, keys: set<nat>)
    requires keys <= q1.Keys && keys <= q2.Keys && forall k :: k in keys ==> q1[k] == q2[k]
    ensures Flatten(q1, keys) == Flatten(q2, keys)
    decreases |keys|
  {
    if keys != {} {
      FlattenSame(q1, q2, keys - {Least(keys)});
    }
  }

  lemma FlattenOne(queue: map<nat, seq<Transaction>>, k: nat)
    requires k in queue
    ensures Flatten(queue, {k}) == queue[k]
  {
    assert {k} - {Least({k})} == {};
  }

  /** The next slot to visit is the next to publish, if it is confirmed. */
  lemma NextReady(queue: map<nat, seq<Transaction>>, todo: set<nat>, slots: set<nat>)
    requires todo != {} && todo <= queue.Keys
    ensures var k := Least(todo);
            Flatten(queue, todo * slots)
            == (if k in slots then queue[k] else []) + Flatten(queue, (todo - {k}) * slots)
  {
    var k := Least(todo);
    if k in slots {
      assert k in todo * slots;
      assert Least(todo * slots) == k;
      assert todo * slots - {k} == (todo - {k}) * slots;
    } else {
      assert todo * slots == (todo - {k}) * slots;
    }
  }

  // ------------------------------------------------- what becomes of a slot

  /** The transactions of slot `k`, in order. */
  function OfSlot(txs: seq<Transaction>, k: nat): seq<Transaction> {
    if txs == [] then [] else
    (if txs[0].slot == k then [txs[0]] else []) + OfSlot(txs[1..], k)
  }

  lemma {:induction false} OfSlotConcat(a: seq<Transaction>, b: seq<Transaction>, k: nat)
    ensures OfSlot(a + b, k) == OfSlot(a, k) + OfSlot(b, k)
  {
    if a == [] {
      assert a + b == b;
    } else {
      assert (a + b)[1..] == a[1..] + b;
      OfSlotConcat(a[1..], b, k);
    }
  }

  lemma {:induction false} OfSlotUniform(txs: seq<Transaction>, own: nat, k: nat)
    requires forall i :: 0 <= i < |txs| ==> txs[i].slot == own
    ensures OfSlot(txs, k) == if own == k then txs else []
  {
    if txs != [] {
      OfSlotUniform(txs[1..], own, k);
    }
  }

  lemma {:induction false} OfSlotFlatten(b: Buffer, keys: set<nat>, k: nat)
    requires b.Filed() && keys <= b.queue.Keys
    ensures OfSlot(Flatten(b.queue, keys), k) == if k in keys then b.queue[k] else []
    decreases |keys|
  {
    if keys != {} {
      var least := Least(keys);
      OfSlotConcat(b.queue[least], Flatten(b.queue, keys - {least}), k);
      OfSlotUniform(b.queue[least], least, k);
      OfSlotFlatten(b, keys - {least}, k);
    }
  }

  /** A drain publishes the whole of every retained slot, discards the whole of
      every slot older than those, and leaves every other slot as it is. */
  lemma DrainDecides(b: Buffer, k: nat)
    requires b.Filed()
    ensures OfSlot(b.Published(), k) == if k in b.slots then b.Queued(k) else []
    ensures OfSlot(b.Discarded(), k) == if b.Expired(k) then b.Queued(k) else []
    ensures b.Drained().Queued(k) == if k in b.slots || b.Expired(k) then [] else b.Queued(k)
  {
    OfSlotFlatten(b, b.Ready(), k);
    OfSlotFlatten(b, b.Stale(), k);
  }

  lemma {:induction false} MembersFlatten(b: Buffer, keys: set<nat>)
    requires b.Filed() && keys <= b.queue.Keys
    ensures forall tx :: tx in Flatten(b.queue, keys) ==> tx.slot in keys
    decreases |keys|
  {
    if keys != {} {
      MembersFlatten(b, keys - {Least(keys)});
    }
  }

  predicate InOrder(txs: seq<Transaction>) {
    forall i, j :: 0 <= i < j < |txs| ==> txs[i].slot <= txs[j].slot
  }

  /** Transactions are published in the order of their slots. */
  lemma {:induction false} PublishedInOrder(b: Buffer, keys: set<nat>)
    requires b.Filed() && keys <= b.queue.Keys
    ensures InOrder(Flatten(b.queue, keys))
    decreases |keys|
  {
    if keys != {} {
      var k := Least(keys);
      PublishedInOrder(b, keys - {k});
      MembersFlatten(b, keys - {k});
      var head, tail := b.queue[k], Flatten(b.queue, keys - {k});
      var txs := Flatten(b.queue, keys);
      assert txs == head + tail;
      forall i, j | 0 <= i < j < |txs|
        ensures txs[i].slot <= txs[j].slot
      {
        if |head| <= j {
          assert txs[j] == tail[j - |head|] && tail[j - |head|] in tail;
          if |head| <= i {
            assert txs[i] == tail[i - |head|];
            assert tail[i - |head|].slot <= tail[j - |head|].slot;
          } else {
            assert txs[i] == b.queue[k][i];
          }
        } else {
          assert txs[i] == b.queue[k][i] && txs[j] == b.queue[k][j];
        }
      }
    }
  }

  // ------------------------------------------------------------- every run

  /** How a transaction left, and the slots retained when it did. */
  datatype Exit = Exit(tx: Transaction, published: bool, retained: set<nat>)

  /** The buffer with a record of the transactions received, of how each one left,
      and of the slots reported. */
  datatype History = History(buffer: Buffer, received: seq<Transaction>, exits: seq<Exit>, reported: set<nat>)

  datatype Event = Updated(update: Update, filters: seq<string>) | DrainDue

  const START := History(Buffer(map[], {}), [], [], {})

  function Txs(exits: seq<Exit>): seq<Transaction> {
    if exits == [] then [] else [exits[0].tx] + Txs(exits[1..])
  }

  function Mark(txs: seq<Transaction>, published: bool, retained: set<nat>): seq<Exit> {
    if txs == [] then [] else [Exit(txs[0], published, retained)] + Mark(txs[1..], published, retained)
  }

  function ReceivedBy(update: Update, filters: seq<string>): seq<Transaction> {
    match update
    case TransactionUpdate(slot, Some((signature, true))) => [Transaction(slot, signature, filters)]
    case _ => []
  }

  function ReportedBy(update: Update): set<nat> {
    if update.SlotUpdate? && update.status != Processed then {update.slot} else {}
  }

  function Step(h: History, e: Event, size: nat): History {
    match e
    case Updated(update, filters) =>
      h.(buffer := h.buffer.Apply(update, filters, size),
         received := h.received + ReceivedBy(update, filters),
         reported := h.reported + ReportedBy(update))
    case DrainDue =>
      h.(buffer := h.buffer.Drained(),
         exits := h.exits + Mark(h.buffer.Discarded(), false, h.buffer.slots)
                  + Mark(h.buffer.Published(), true, h.buffer.slots))
  }

  function Run(h: History, events: seq<Event>, size: nat): History {
    if events == [] then h else Step(Run(h, events[..|events| - 1], size), events[|events| - 1], size)
  }

  lemma {:induction false} TxsConcat(a: seq<Exit>, b: seq<Exit>)
    ensures Txs(a + b) == Txs(a) + Txs(b)
  {
    if a == [] {
      assert a + b == b;
    } else {
      assert (a + b)[1..] == a[1..] + b;
      TxsConcat(a[1..], b);
    }
  }

  lemma {:induction false} TxsMark(txs: seq<Transaction>, published: bool, retained: set<nat>)
    ensures Txs(Mark(txs, published, retained)) == txs
    ensures forall e :: e in Mark(txs, published, retained) ==>
              e.published == published && e.retained == retained && e.tx in txs
  {
    if txs != [] {
      TxsMark(txs[1..], published, retained);
    }
  }

  /** Slot by slot, what was received is what has left, in order, and then what is
      still queued. */
  ghost predicate Conserved(h: History) {
    forall k: nat :: OfSlot(h.received, k) == OfSlot(Txs(h.exits), k) + h.buffer.Queued(k)
  }

  /** The slots retained are the `size` greatest of those reported. */
  predicate RetainsGreatest(h: History, size: nat) {
    && h.buffer.slots <= h.reported && |h.buffer.slots| <= size
    && (|h.buffer.slots| < size ==> h.buffer.slots == h.reported)
    && (forall r, s :: r in h.reported - h.buffer.slots && s in h.buffer.slots ==> r < s)
  }

  /** The slots retained when something left had been reported, and were as many as fit;
      it was published from one of them, or discarded for being older than all of
      them. */
  predicate ExitsJustified(h: History, size: nat) {
    forall e :: e in h.exits ==>
      && e.retained <= h.reported && |e.retained| <= size
      && (if e.published then e.tx.slot in e.retained
          else e.retained != {} && forall s :: s in e.retained ==> e.tx.slot < s)
  }

  ghost predicate Inv(h: History, size: nat) {
    h.buffer.Filed() && Conserved(h) && RetainsGreatest(h, size) && ExitsJustified(h, size)
  }

  lemma ReportRetains(h: History, slot: nat, size: nat)
    requires RetainsGreatest(h, size)
    ensures RetainsGreatest(h.(buffer := h.buffer.Report(slot, size), reported := h.reported + {slot}), size)
  {
    var slots, more := h.buffer.slots, h.buffer.slots + {slot};
    if slot in slots {
      assert more == slots && h.reported + {slot} == h.reported;
    } else if size < |more| {
      var least := Least(more);
      assert |more - {least}| == size;
      forall r, s | r in h.reported + {slot} - (more - {least}) && s in more - {least}
        ensures r < s
      {
        if r == least {
          assert s in more && s != least;
        } else {
          assert r !in more && r in h.reported - slots;
          if s == slot {
            assert least in slots;
          } else {
            assert s in slots;
          }
        }
      }
    }
  }

  lemma ReceiveFiles(b: Buffer, slot: nat, txs: seq<Transaction>)
    requires b.Filed() && forall i :: 0 <= i < |txs| ==> txs[i].slot == slot
    ensures b.Receive(slot, txs).Filed()
  {
    var b' := b.Receive(slot, txs);
    forall k, i | k in b'.queue && 0 <= i < |b'.queue[k]|
      ensures b'.queue[k][i].slot == k
    {
      if k != slot || i < |b.Queued(slot)| {
        assert b'.queue[k][i] == b.queue[k][i];
      } else {
        assert b'.queue[k][i] == txs[i - |b.Queued(slot)|];
      }
    }
  }

  lemma Associates(a: seq<Transaction>, b: seq<Transaction>, c: seq<Transaction>)
    ensures a + b + c == a + (b + c)
  {
  }

  lemma ReceiveConserves(h: History, slot: nat, txs: seq<Transaction>, k: nat)
    requires OfSlot(h.received, k) == OfSlot(Txs(h.exits), k) + h.buffer.Queued(k)
    requires forall i :: 0 <= i < |txs| ==> txs[i].slot == slot
    ensures OfSlot(h.received + txs, k) == OfSlot(Txs(h.exits), k) + h.buffer.Receive(slot, txs).Queued(k)
  {
    hide OfSlot, Txs;
    OfSlotConcat(h.received, txs, k);
    OfSlotUniform(txs, slot, k);
    var left, queued := OfSlot(Txs(h.exits), k), h.buffer.Queued(k);
    if k == slot {
      Associates(left, queued, txs);
      assert h.buffer.Receive(slot, txs).Queued(k) == queued + txs;
    } else {
      assert h.buffer.Receive(slot, txs).Queued(k) == queued;
      assert left + queued + [] == left + queued;
    }
  }

  lemma UpdateKeeps(h: History, update: Update, filters: seq<string>, size: nat)
    requires Inv(h, size)
    ensures Inv(Step(h, Updated(update, filters), size), size)
  {
    hide OfSlot, Buffer.Report;
    var h' := Step(h, Updated(update, filters), size);
    if update.TransactionUpdate? && update.info.Some? {
      forall k: nat
        ensures OfSlot(h'.received, k) == OfSlot(Txs(h'.exits), k) + h'.buffer.Queued(k)
      {
        ReceiveConserves(h, update.slot, ReceivedBy(update, filters), k);
      }
      ReceiveFiles(h.buffer, update.slot, ReceivedBy(update, filters));
    } else {
      assert h.received + [] == h.received;
      if ReportedBy(update) != {} {
        ReportRetains(h, update.slot, size);
        ReportFrames(h.buffer, update.slot, size);
      } else {
        assert h.reported + {} == h.reported;
      }
    }
  }

  lemma ReportFrames(b: Buffer, slot: nat, size: nat)
    ensures b.Report(slot, size).queue == b.queue
  {
  }

  lemma DrainExits(h: History, size: nat)
    ensures Txs(Step(h, DrainDue, size).exits) == Txs(h.exits) + h.buffer.Discarded() + h.buffer.Published()
    ensures forall e :: e in Step(h, DrainDue, size).exits ==>
              || e in h.exits
              || (e.retained == h.buffer.slots
                  && e.tx in if e.published then h.buffer.Published() else h.buffer.Discarded())
  {
    hide Buffer.Published, Buffer.Discarded, Txs, Mark;
    var b := h.buffer;
    var low, high := Mark(b.Discarded(), false, b.slots), Mark(b.Published(), true, b.slots);
    TxsMark(b.Discarded(), false, b.slots);
    TxsMark(b.Published(), true, b.slots);
    TxsConcat(h.exits + low, high);
    TxsConcat(h.exits, low);
  }

  lemma DrainConserves(h: History, size: nat, k: nat)
    requires h.buffer.Filed() && OfSlot(h.received, k) == OfSlot(Txs(h.exits), k) + h.buffer.Queued(k)
    ensures var h' := Step(h, DrainDue, size);
            OfSlot(h'.received, k) == OfSlot(Txs(h'.exits), k) + h'.buffer.Queued(k)
  {
    hide Buffer.Published, Buffer.Discarded, Buffer.Drained, Buffer.Expired, OfSlot, Txs;
    var b := h.buffer;
    DrainExits(h, size);
    OfSlotConcat(Txs(h.exits) + b.Discarded(), b.Published(), k);
    OfSlotConcat(Txs(h.exits), b.Discarded(), k);
    DrainDecides(b, k);
    assert k in b.slots ==> !b.Expired(k) by { NotExpired(b, k); }
  }

  lemma NotExpired(b: Buffer, k: nat)
    ensures k in b.slots ==> !b.Expired(k)
  {
  }

  lemma DrainKeeps(h: History, size: nat)
    requires Inv(h, size)
    ensures Inv(Step(h, DrainDue, size), size)
  {
    hide Buffer.Published, Buffer.Discarded, OfSlot, Txs, Flatten;
    var h' := Step(h, DrainDue, size);
    forall k: nat
      ensures OfSlot(h'.received, k) == OfSlot(Txs(h'.exits), k) + h'.buffer.Queued(k)
    {
      DrainConserves(h, size, k);
    }
    DrainExits(h, size);
    LeftFrom(h.buffer);
    assert forall e :: e in h'.exits && e !in h.exits ==>
        && e.retained == h.buffer.slots
        && if e.published then e.tx.slot in h.buffer.slots else h.buffer.Expired(e.tx.slot);
  }

  lemma LeftFrom(b: Buffer)
    requires b.Filed()
    ensures forall tx :: tx in b.Published() ==> tx.slot in b.slots
    ensures forall tx :: tx in b.Discarded() ==> b.Expired(tx.slot)
  {
    MembersFlatten(b, b.Stale());
    MembersFlatten(b, b.Ready());
  }

  /** In every interleaving of updates and drains: nothing received is lost, made
      up, repeated or reordered within its slot; only transactions of reported
      slots are published; and the slots retained are the greatest reported. */
  lemma {:induction false} EveryRun(events: seq<Event>, size: nat)
    ensures Inv(Run(START, events, size), size)
  {
    if events != [] {
      EveryRun(events[..|events| - 1], size);
      var h := Run(START, events[..|events| - 1], size);
      match events[|events| - 1]
      case Updated(update, filters) => UpdateKeeps(h, update, filters, size);
      case DrainDue => DrainKeeps(h, size);
    }
  }

  /** A transaction whose slot is older than a retained one is gone at the next
      drain, however soon its own slot is reported after that. */
  lemma LateReportIsLost(tx: Transaction, next: nat, size: nat)
    requires 2 <= size && tx.slot < next
    ensures var h := History(Buffer(map[tx.slot := [tx]], {next}), [tx], [], {next});
            var report := Updated(SlotUpdate(tx.slot, Confirmed), []);
            var late, soon := Step(Step(Step(h, DrainDue, size), report, size), DrainDue, size),
                              Step(Step(h, report, size), DrainDue, size);
            && late.reported == soon.reported == {tx.slot, next}
            && late.exits == [Exit(tx, false, {next})] && soon.exits == [Exit(tx, true, {tx.slot, next})]
  {
    hide Buffer.Drained, Buffer.Published, Buffer.Discarded;
    OneSlotDrain(tx, {next});
    OneSlotDrain(tx, {tx.slot, next});
    NoSlotDrain({tx.slot, next});
    assert Buffer(map[tx.slot := [tx]], {next}).Report(tx.slot, size).slots == {tx.slot, next};
    assert Buffer(map[], {next}).Report(tx.slot, size).slots == {tx.slot, next};
    assert {next} + {tx.slot} == {tx.slot, next};
    assert Mark([tx], false, {next}) == [Exit(tx, false, {next})];
    assert Mark([tx], true, {tx.slot, next}) == [Exit(tx, true, {tx.slot, next})];
  }

  /** Draining one transaction while some slot is retained that is not older. */
  lemma OneSlotDrain(tx: Transaction, slots: set<nat>)
    requires slots != {} && tx.slot <= Least(slots)
    ensures var b := Buffer(map[tx.slot := [tx]], slots);
            && b.Drained() == Buffer(map[], slots)
            && b.Published() == (if tx.slot in slots then [tx] else [])
            && b.Discarded() == (if tx.slot in slots then [] else [tx])
  {
    var b := Buffer(map[tx.slot := [tx]], slots);
    FlattenOne(b.queue, tx.slot);
    assert b.Stale() == if tx.slot in slots then {} else {tx.slot};
    assert b.Ready() == if tx.slot in slots then {tx.slot} else {};
    assert b.Drained().queue == map[];
  }

  lemma NoSlotDrain(slots: set<nat>)
    ensures var b := Buffer(map[], slots);
            b.Drained() == b && b.Published() == [] && b.Discarded() == []
  {
    var b := Buffer(map[], slots);
    assert b.Stale() == {} && b.Ready() == {};
    assert b.Drained().queue == map[];
  }
}
