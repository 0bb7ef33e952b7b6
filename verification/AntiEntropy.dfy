/** The batch stream of an anti-entropy exchange: an immutable plan of signed
    tokens, the chunker that cuts the plan into size-bounded batches, and the
    assembler that turns accepted batches back into whole tokens. */
module AntiEntropy {
  import opened Wrappers

  datatype Kind = Membership | Snapshot | Operation | Revocation | Rotation {
    function Rank(): int {
      match this
      case Membership => 0
      case Snapshot => 1
      case Operation => 2
      case Revocation => 3
      case Rotation => 4
    }
  }

  datatype Item = Item(kind: Kind, token: string)

  type Vector = map<string, nat>

  datatype Cursor = Cursor(item: int, offset: int)

  const ORIGIN := Cursor(0, 0)

  datatype Chunk = Chunk(kind: Kind, hash: string, offset: int, total: int, data: string)

  datatype Batch = Batch(space: string, start: Cursor, next: Option<Cursor>, done: bool, ack: Vector, chunks: seq<Chunk>)

  datatype Error = Invalid | Order | Limit | Denied | Fault

  // The content hash of a token. Collision freedom is the only property used,
  // so the digest is modelled as the identity.
  function Digest(token: string): string {
    token
  }

  predicate Before(a: Cursor, b: Cursor) {
    a.item < b.item || (a.item == b.item && a.offset < b.offset)
  }

  // ---------- Cursor arithmetic ----------

  function StepCursor(c: Cursor, chunk: Chunk): Cursor {
    if chunk.offset + |chunk.data| == chunk.total
    then Cursor(c.item + 1, 0)
    else Cursor(c.item, chunk.offset + |chunk.data|)
  }

  function After(start: Cursor, chunks: seq<Chunk>): Cursor {
    if chunks == [] then start
    else StepCursor(After(start, chunks[..|chunks| - 1]), chunks[|chunks| - 1])
  }

  // The cursor one accepted batch acknowledges, computed as the receiver and
  // the sender both compute it: from the chunks alone.
  method AcceptedCursor(batch: Batch) returns (cursor: Cursor)
    ensures cursor == After(batch.start, batch.chunks)
  {
    cursor := batch.start;
    for i := 0 to |batch.chunks|
      invariant cursor == After(batch.start, batch.chunks[..i])
    {
      var chunk := batch.chunks[i];
      assert batch.chunks[..i + 1][..i] == batch.chunks[..i];
      cursor := cursor.(offset := chunk.offset + |chunk.data|);
      if cursor.offset == chunk.total {
        cursor := Cursor(cursor.item + 1, 0);
      }
    }
    assert batch.chunks[..|batch.chunks|] == batch.chunks;
  }

  // ---------- The plan ----------

  datatype Plan = Plan(space: string, ack: Vector, items: seq<Item>, maxBytes: nat)

  predicate IsSnapshot(item: Item) {
    item.kind == Snapshot
  }

  // What plan construction guarantees: whole tokens, grouped by kind in rank
  // order, with at most one snapshot.
  ghost predicate PlanItems(items: seq<Item>) {
    && (forall i :: 0 <= i < |items| ==> |items[i].token| > 0)
    && (forall i, j :: 0 <= i < j < |items| ==> items[i].kind.Rank() <= items[j].kind.Rank())
    && (forall i, j :: 0 <= i < j < |items| ==> !(IsSnapshot(items[i]) && IsSnapshot(items[j])))
  }

  function Tagged(kind: Kind, tokens: seq<string>): (items: seq<Item>)
    ensures |items| == |tokens| && forall i :: 0 <= i < |tokens| ==> items[i] == Item(kind, tokens[i])
  {
    seq(|tokens|, i requires 0 <= i < |tokens| => Item(kind, tokens[i]))
  }

  // The order in which a plan lists what the other side is missing. Sorting and
  // deduplication inside one kind happen before this point.
  function Assemble(memberships: seq<string>, snapshot: Option<string>, operations: seq<string>,
                    revocations: seq<string>, rotations: seq<string>): seq<Item> {
    Tagged(Membership, memberships)
    + (if snapshot.Some? then [Item(Snapshot, snapshot.value)] else [])
    + Tagged(Operation, operations) + Tagged(Revocation, revocations) + Tagged(Rotation, rotations)
  }

  lemma AssembledPlansAreOrdered(memberships: seq<string>, snapshot: Option<string>, operations: seq<string>,
                                 revocations: seq<string>, rotations: seq<string>)
    requires forall t :: t in memberships + operations + revocations + rotations ==> t != ""
    requires snapshot != Some("")
    ensures PlanItems(Assemble(memberships, snapshot, operations, revocations, rotations))
  {
    var a := |memberships|;
    var b := a + if snapshot.Some? then 1 else 0;
    var c := b + |operations|;
    var d := c + |revocations|;
    var items := Assemble(memberships, snapshot, operations, revocations, rotations);
    assert forall i :: 0 <= i < |items| ==>
             items[i] == if i < a then Item(Membership, memberships[i])
                         else if i < b then Item(Snapshot, snapshot.value)
                         else if i < c then Item(Operation, operations[i - b])
                         else if i < d then Item(Revocation, revocations[i - c])
                         else Item(Rotation, rotations[i - d]);
    forall i | 0 <= i < |items|
      ensures |items[i].token| > 0
    {
      assert a == b || i < a || i >= b || items[i].token == snapshot.value;
      assert items[i].token in memberships + operations + revocations + rotations || (a <= i < b);
    }
  }

  lemma KindsInOrder()
    ensures Membership.Rank() < Snapshot.Rank() < Operation.Rank() < Revocation.Rank() < Rotation.Rank()
  {
  }

  predicate ValidCursor(items: seq<Item>, c: Cursor) {
    && 0 <= c.item <= |items| && 0 <= c.offset
    && (if c.item == |items| then c.offset == 0 else c.offset < |items[c.item].token|)
  }

  // `c` is a non-empty piece of the plan's byte stream at position `pos`.
  predicate ChunkAt(items: seq<Item>, pos: Cursor, c: Chunk) {
    && ValidCursor(items, pos) && pos.item < |items|
    && var token := items[pos.item].token;
    && c.kind == items[pos.item].kind && c.hash == Digest(token)
    && c.offset == pos.offset && c.total == |token|
    && 0 < |c.data| <= |token| - pos.offset
    && c.data == token[pos.offset..pos.offset + |c.data|]
  }

  predicate ChunksFrom(items: seq<Item>, start: Cursor, chunks: seq<Chunk>) {
    chunks == [] ||
    var n := |chunks| - 1;
    ChunksFrom(items, start, chunks[..n]) && ChunkAt(items, After(start, chunks[..n]), chunks[n])
  }

  // `b` continues the plan at `start`: contiguous chunks, and a Next cursor
  // exactly when the plan is not finished.
  predicate Continues(plan: Plan, start: Cursor, b: Batch) {
    && b.space == plan.space && b.ack == plan.ack && b.start == start
    && ValidCursor(plan.items, start)
    && ChunksFrom(plan.items, start, b.chunks)
    && var end := After(start, b.chunks);
    && b.done == (end.item == |plan.items|)
    && b.next == (if b.done then None else Some(end))
    && (b.chunks == [] ==> start.item == |plan.items|)
  }

  lemma {:induction false} AfterStaysValid(items: seq<Item>, start: Cursor, chunks: seq<Chunk>)
    requires PlanItems(items) && ValidCursor(items, start) && ChunksFrom(items, start, chunks)
    ensures ValidCursor(items, After(start, chunks))
    ensures chunks != [] ==> Before(start, After(start, chunks))
  {
    if chunks != [] {
      AfterStaysValid(items, start, chunks[..|chunks| - 1]);
    }
  }

  // ---------- The chunker ----------

  function PieceAt(items: seq<Item>, pos: Cursor, length: nat): Chunk
    requires ValidCursor(items, pos) && pos.item < |items|
    requires length <= |items[pos.item].token| - pos.offset
  {
    var item := items[pos.item];
    Chunk(item.kind, Digest(item.token), pos.offset, |item.token|, item.token[pos.offset..pos.offset + length])
  }

  lemma AppendPiece(items: seq<Item>, start: Cursor, chunks: seq<Chunk>, length: nat)
    requires PlanItems(items) && ValidCursor(items, start) && ChunksFrom(items, start, chunks)
    requires var pos := After(start, chunks);
             ValidCursor(items, pos) && pos.item < |items| && 0 < length <= |items[pos.item].token| - pos.offset
    ensures var pos := After(start, chunks);
            var longer := chunks + [PieceAt(items, pos, length)];
            && ChunksFrom(items, start, longer) && ValidCursor(items, After(start, longer))
            && After(start, longer) == (if pos.offset + length == |items[pos.item].token|
                                        then Cursor(pos.item + 1, 0) else Cursor(pos.item, pos.offset + length))
  {
  }

  // The batch `chunks` would make if it were closed now.
  function Sealed(plan: Plan, start: Cursor, chunks: seq<Chunk>): Batch {
    var end := After(start, chunks);
    var done := end.item == |plan.items|;
    Batch(plan.space, start, if done then None else Some(end), done, plan.ack, chunks)
  }

  function Candidate(plan: Plan, start: Cursor, chunks: seq<Chunk>, pos: Cursor, length: nat): Batch
    requires ValidCursor(plan.items, pos) && pos.item < |plan.items|
    requires length <= |plan.items[pos.item].token| - pos.offset
  {
    Sealed(plan, start, chunks + [PieceAt(plan.items, pos, length)])
  }

  // Binary search for the next piece. Whatever the encoder `size` does, one
  // byte more than the answer does not fit.
  method LargestChunk(size: Batch -> nat, plan: Plan, start: Cursor, chunks: seq<Chunk>, pos: Cursor) returns (best: nat)
    requires ValidCursor(plan.items, pos) && pos.item < |plan.items|
    ensures best <= |plan.items[pos.item].token| - pos.offset
    ensures best > 0 ==> size(Candidate(plan, start, chunks, pos, best)) <= plan.maxBytes
    ensures best < |plan.items[pos.item].token| - pos.offset
            ==> size(Candidate(plan, start, chunks, pos, best + 1)) > plan.maxBytes
  {
    var remaining := |plan.items[pos.item].token| - pos.offset;
    var low, high: int := 1, remaining;
    best := 0;
    while low <= high
      invariant 1 <= low <= high + 1 <= remaining + 1
      invariant best == low - 1
      invariant best > 0 ==> size(Candidate(plan, start, chunks, pos, best)) <= plan.maxBytes
      invariant high < remaining ==> size(Candidate(plan, start, chunks, pos, high + 1)) > plan.maxBytes
    {
      var middle := low + (high - low) / 2;
      if size(Candidate(plan, start, chunks, pos, middle)) <= plan.maxBytes {
        best := middle;
        low := middle + 1;
      } else {
        high := middle - 1;
      }
    }
  }

  // The next batch of the plan. It fails only on a cursor outside the plan or
  // when not even one byte fits (an empty plan may also have no room for its
  // bare header).
  method Next(size: Batch -> nat, plan: Plan, cursor: Option<Cursor>) returns (r: Result<Batch, Error>)
    requires PlanItems(plan.items)
    ensures var start := if cursor.None? then ORIGIN else cursor.value;
      match r
      case Success(b) => Continues(plan, start, b) && size(b) <= plan.maxBytes
      case Failure(e) =>
        if !ValidCursor(plan.items, start) then e == Order
        else e == Limit && plan.maxBytes < if start.item < |plan.items|
                                           then size(Candidate(plan, start, [], start, 1))
                                           else size(Sealed(plan, start, []))
  {
    var start := if cursor.None? then ORIGIN else cursor.value;
    if !ValidCursor(plan.items, start) {
      return Failure(Order);
    }
    var chunks: seq<Chunk> := [];
    var position := start;
    while position.item < |plan.items|
      invariant ValidCursor(plan.items, position)
      invariant ChunksFrom(plan.items, start, chunks) && position == After(start, chunks)
      invariant chunks != [] ==> size(Sealed(plan, start, chunks)) <= plan.maxBytes
      decreases |plan.items| - position.item,
                if position.item < |plan.items| then |plan.items[position.item].token| - position.offset else 0
    {
      var token := plan.items[position.item].token;
      var length := LargestChunk(size, plan, start, chunks, position);
      if length == 0 {
        if chunks == [] {
          return Failure(Limit);
        }
        break;
      }
      AppendPiece(plan.items, start, chunks, length);
      chunks := chunks + [PieceAt(plan.items, position, length)];
      position := position.(offset := position.offset + length);
      if position.offset == |token| {
        position := Cursor(position.item + 1, 0);
      }
    }
    var batch := Sealed(plan, start, chunks);
    if size(batch) > plan.maxBytes {
      return Failure(Limit);
    }
    return Success(batch);
  }

  // ---------- The assembler ----------

  datatype Partial = Partial(kind: Kind, hash: string, total: int, data: string)

  datatype Assembly = Assembly(
    space: string, expected: Cursor, current: Option<Partial>, terminal: bool,
    last: Option<Batch>, ack: Option<Vector>, rank: int, seenSnapshot: bool)

  function NewAssembly(space: string): Assembly {
    Assembly(space, ORIGIN, None, false, None, None, -1, false)
  }

  // The working copy one Add call advances before it commits.
  datatype Scan = Scan(position: Cursor, current: Option<Partial>, emitted: seq<Item>, rank: int, seenSnapshot: bool)

  predicate ValidChunk(c: Chunk) {
    0 <= c.offset < c.total && 0 < |c.data| <= c.total - c.offset
  }

  function ScanChunk(s: Scan, c: Chunk): Result<Scan, Error> {
    if !ValidChunk(c) then Failure(Invalid)
    else if s.current.None? && c.offset != 0 then Failure(Order)
    else
      var current := if s.current.None? then Partial(c.kind, c.hash, c.total, "") else s.current.value;
      if c.kind != current.kind || c.hash != current.hash || c.total != current.total
         || c.offset != |current.data| || |current.data| + |c.data| > current.total
      then Failure(Order)
      else
        var data := current.data + c.data;
        if |data| < current.total then
          Success(s.(position := s.position.(offset := |data|), current := Some(current.(data := data))))
        else if Digest(data) != current.hash then Failure(Invalid)
        else if current.kind.Rank() < s.rank || (current.kind == Snapshot && s.seenSnapshot) then Failure(Order)
        else Success(Scan(Cursor(s.position.item + 1, 0), None, s.emitted + [Item(current.kind, data)],
                          current.kind.Rank(), s.seenSnapshot || current.kind == Snapshot))
  }

  function ScanChunks(s: Scan, chunks: seq<Chunk>): Result<Scan, Error> {
    if chunks == [] then Success(s)
    else match ScanChunks(s, chunks[..|chunks| - 1])
      case Failure(e) => Failure(e)
      case Success(t) => ScanChunk(t, chunks[|chunks| - 1])
  }

  function Opening(a: Assembly): Scan {
    Scan(a.expected, a.current, [], a.rank, a.seenSnapshot)
  }

  predicate ValidHeader(a: Assembly, b: Batch) {
    && b.space == a.space && b.start.item >= 0 && b.start.offset >= 0
    && b.done == b.next.None?
    && (!b.done ==> b.chunks != [] && b.next.value.item >= 0 && b.next.value.offset >= 0)
  }

  datatype Added = Added(assembly: Assembly, items: Result<seq<Item>, Error>)

  function AddBatch(a: Assembly, b: Batch): Added {
    if !ValidHeader(a, b) then Added(a, Failure(Invalid))
    else if a.last == Some(b) then Added(a, Success([]))
    else if a.terminal || b.start != a.expected then Added(a, Failure(Order))
    else if a.ack.Some? && a.ack.value != b.ack then Added(a, Failure(Order))
    else match ScanChunks(Opening(a), b.chunks)
      case Failure(e) => Added(a, Failure(e))
      case Success(s) =>
        if (b.done && s.current.Some?) || (!b.done && b.next != Some(s.position)) then Added(a, Failure(Order))
        else Added(Assembly(a.space, s.position, s.current, b.done, Some(b),
                            if a.ack.None? then Some(b.ack) else a.ack, s.rank, s.seenSnapshot),
                   Success(s.emitted))
  }

  class Assembler {
    const space: string
    var expected: Cursor
    var current: Option<Partial>
    var terminal: bool
    var last: Option<Batch>
    var ack: Option<Vector>
    var rank: int
    var seenSnapshot: bool

    function State(): Assembly
      reads this
    {
      Assembly(space, expected, current, terminal, last, ack, rank, seenSnapshot)
    }

    constructor (space: string)
      ensures State() == NewAssembly(space)
    {
      this.space := space;
      expected, current, terminal, last, ack, rank, seenSnapshot := ORIGIN, None, false, None, None, -1, false;
    }

    // State advances only once the whole batch has validated.
    method Add(batch: Batch) returns (r: Result<seq<Item>, Error>)
      modifies this
      ensures var added := AddBatch(old(State()), batch); State() == added.assembly && r == added.items
    {
      if !ValidHeader(State(), batch) {
        return Failure(Invalid);
      }
      if last == Some(batch) {
        return Success([]);
      }
      if terminal || batch.start != expected {
        return Failure(Order);
      }
      if ack.Some? && ack.value != batch.ack {
        return Failure(Order);
      }
      var scan := Opening(State());
      for i := 0 to |batch.chunks|
        invariant ScanChunks(Opening(old(State())), batch.chunks[..i]) == Success(scan)
        invariant State() == old(State())
      {
        assert batch.chunks[..i + 1][..i] == batch.chunks[..i];
        var step := ScanChunk(scan, batch.chunks[i]);
        if step.Failure? {
          ScanFailurePersists(Opening(State()), batch.chunks, i + 1);
          return Failure(step.error);
        }
        scan := step.value;
      }
      assert batch.chunks[..|batch.chunks|] == batch.chunks;
      if batch.done {
        if scan.current.Some? {
          return Failure(Order);
        }
      } else if batch.next != Some(scan.position) {
        return Failure(Order);
      }
      expected, current, terminal, last := scan.position, scan.current, batch.done, Some(batch);
      if ack.None? {
        ack := Some(batch.ack);
      }
      rank, seenSnapshot := scan.rank, scan.seenSnapshot;
      return Success(scan.emitted);
    }
  }

  lemma {:induction false} ScanFailurePersists(s: Scan, chunks: seq<Chunk>, n: nat)
    requires n <= |chunks| && ScanChunks(s, chunks[..n]).Failure?
    ensures ScanChunks(s, chunks) == ScanChunks(s, chunks[..n])
    decreases |chunks|
  {
    if n == |chunks| {
      assert chunks[..n] == chunks;
    } else {
      var front := chunks[..|chunks| - 1];
      assert front[..n] == chunks[..n];
      ScanFailurePersists(s, front, n);
    }
  }

  // ---------- The assembler follows the plan ----------

  // Everything the assembler holds is what the plan's first bytes, up to
  // `position`, determine.
  ghost predicate Tracks(items: seq<Item>, position: Cursor, current: Option<Partial>, rank: int, seenSnapshot: bool) {
    && ValidCursor(items, position)
    && current == (if position.offset == 0 then None
                   else var item := items[position.item];
                        Some(Partial(item.kind, Digest(item.token), |item.token|, item.token[..position.offset])))
    && rank == (if position.item == 0 then -1 else items[position.item - 1].kind.Rank())
    && (seenSnapshot <==> exists i :: 0 <= i < position.item && IsSnapshot(items[i]))
  }

  ghost predicate ScanTracks(items: seq<Item>, s: Scan) {
    Tracks(items, s.position, s.current, s.rank, s.seenSnapshot)
  }

  ghost predicate AssemblyTracks(items: seq<Item>, a: Assembly) {
    Tracks(items, a.expected, a.current, a.rank, a.seenSnapshot)
  }

  lemma ScanChunkTracks(items: seq<Item>, s: Scan, c: Chunk)
    requires PlanItems(items) && ScanTracks(items, s) && ChunkAt(items, s.position, c)
    ensures ScanChunk(s, c).Success?
    ensures var t := ScanChunk(s, c).value;
            && ScanTracks(items, t) && t.position == StepCursor(s.position, c)
            && s.position.item <= t.position.item <= |items|
            && t.emitted == s.emitted + items[s.position.item..t.position.item]
  {
    var item := items[s.position.item];
    var have := item.token[..s.position.offset];
    assert have + c.data == item.token[..s.position.offset + |c.data|];
    var t := ScanChunk(s, c);
    if s.position.offset + |c.data| == |item.token| {
      assert have + c.data == item.token;
      assert items[s.position.item..s.position.item + 1] == [item];
      assert forall i :: 0 <= i < s.position.item && IsSnapshot(items[i]) ==> !IsSnapshot(item);
      if s.position.item > 0 {
        assert items[s.position.item - 1].kind.Rank() <= item.kind.Rank();
      }
      assert t.Success?;
      assert IsSnapshot(item) ==> t.value.seenSnapshot;
    } else {
      assert items[s.position.item..s.position.item] == [];
    }
  }

  lemma SliceJoin<T>(s: seq<T>, emitted: seq<T>, i: int, j: int, k: int)
    requires 0 <= i <= j <= k <= |s|
    ensures emitted + s[i..j] + s[j..k] == emitted + s[i..k]
  {
  }

  lemma {:induction false} ScanChunksTracks(items: seq<Item>, s: Scan, chunks: seq<Chunk>)
    requires PlanItems(items) && ScanTracks(items, s) && ChunksFrom(items, s.position, chunks)
    ensures ScanChunks(s, chunks).Success?
    ensures var t := ScanChunks(s, chunks).value;
            && ScanTracks(items, t) && t.position == After(s.position, chunks)
            && s.position.item <= t.position.item <= |items|
            && t.emitted == s.emitted + items[s.position.item..t.position.item]
  {
    if chunks != [] {
      var n := |chunks| - 1;
      ScanChunksTracks(items, s, chunks[..n]);
      var t := ScanChunks(s, chunks[..n]).value;
      ScanChunkTracks(items, t, chunks[n]);
      SliceJoin(items, s.emitted, s.position.item, t.position.item, ScanChunk(t, chunks[n]).value.position.item);
    }
  }

  // A batch cut from the plan at the assembler's cursor is accepted, yields
  // exactly the tokens it completes, and leaves the assembler on the plan.
  lemma AssemblerAccepts(plan: Plan, a: Assembly, b: Batch)
    requires PlanItems(plan.items) && AssemblyTracks(plan.items, a) && Continues(plan, a.expected, b)
    requires a.space == plan.space && !a.terminal && a.last != Some(b)
    requires a.ack.None? || a.ack.value == plan.ack
    ensures var end := After(b.start, b.chunks);
            var added := AddBatch(a, b);
            && 0 <= a.expected.item <= end.item <= |plan.items|
            && added.items == Success(plan.items[a.expected.item..end.item])
            && AssemblyTracks(plan.items, added.assembly) && added.assembly.expected == end
            && added.assembly.space == a.space && added.assembly.terminal == b.done
            && added.assembly.last == Some(b) && added.assembly.ack == Some(plan.ack)
  {
    AfterStaysValid(plan.items, a.expected, b.chunks);
    ScanChunksTracks(plan.items, Opening(a), b.chunks);
    var s := ScanChunks(Opening(a), b.chunks).value;
    assert ValidHeader(a, b);
    assert s.emitted == plan.items[a.expected.item..s.position.item];
    assert b.done ==> s.current.None?;
    assert !b.done ==> b.next == Some(s.position);
  }

  // ---------- The assembler on any input ----------

  // A batch that was just accepted, given again, yields nothing and changes
  // nothing.
  lemma ReplayAccepted(a: Assembly, b: Batch)
    requires AddBatch(a, b).items.Success?
    ensures var after := AddBatch(a, b).assembly; AddBatch(after, b) == Added(after, Success([]))
  {
    hide ScanChunks;
  }

  // What is refused, and how. A refusal changes nothing.
  lemma Refusals(a: Assembly, b: Batch)
    ensures AddBatch(a, b).items.Failure? ==> AddBatch(a, b).assembly == a
    ensures b.space != a.space ==> AddBatch(a, b).items == Failure(Invalid)
    ensures b.done && b.next.Some? ==> AddBatch(a, b).items == Failure(Invalid)
    ensures !b.done && (b.next.None? || b.chunks == []) ==> AddBatch(a, b).items == Failure(Invalid)
    ensures ValidHeader(a, b) && a.last != Some(b) && (a.terminal || b.start != a.expected || (a.ack.Some? && a.ack.value != b.ack)) ==>
      AddBatch(a, b).items == Failure(Order)
  {
    hide ScanChunks;
  }

  function Data(chunks: seq<Chunk>): string {
    if chunks == [] then "" else Data(chunks[..|chunks| - 1]) + chunks[|chunks| - 1].data
  }

  function Tokens(items: seq<Item>): string {
    if items == [] then "" else Tokens(items[..|items| - 1]) + items[|items| - 1].token
  }

  function Begun(current: Option<Partial>): string {
    if current.Some? then current.value.data else ""
  }

  // A chunk is a piece of this token, or of the one begun.
  predicate PieceOf(c: Chunk, item: Item) {
    c.kind == item.kind && c.hash == Digest(item.token) && c.total == |item.token|
  }

  ghost predicate InToken(c: Chunk, emitted: seq<Item>, current: Option<Partial>) {
    && c.data != "" && c.offset >= 0
    && ((exists i :: 0 <= i < |emitted| && PieceOf(c, emitted[i]))
        || (current.Some? && c.kind == current.value.kind && c.hash == current.value.hash && c.total == current.value.total))
  }

  // Everything scanned so far, whoever sent it: tokens in kind order with at most
  // one snapshot, and a begun one that is not complete.
  ghost predicate Built(items: seq<Item>, position: Cursor, current: Option<Partial>, rank: int, seenSnapshot: bool) {
    && PlanItems(items) && position == Cursor(|items|, |Begun(current)|)
    && (current.Some? ==> 0 < |current.value.data| < current.value.total)
    && rank == (if items == [] then -1 else items[|items| - 1].kind.Rank())
    && (seenSnapshot <==> exists i :: 0 <= i < |items| && items[i].kind == Snapshot)
  }

  ghost predicate ScanBuilt(before: seq<Item>, s: Scan) {
    Built(before + s.emitted, s.position, s.current, s.rank, s.seenSnapshot)
  }

  lemma TokensSnoc(items: seq<Item>, item: Item)
    ensures Tokens(items + [item]) == Tokens(items) + item.token
  {
  }

  lemma PlanSnoc(items: seq<Item>, item: Item)
    requires PlanItems(items) && item.token != ""
    requires items == [] || items[|items| - 1].kind.Rank() <= item.kind.Rank()
    requires item.kind == Snapshot ==> forall i :: 0 <= i < |items| ==> items[i].kind != Snapshot
    ensures PlanItems(items + [item])
  {
  }

  lemma BuiltSnoc(items: seq<Item>, position: Cursor, current: Option<Partial>, rank: int, seenSnapshot: bool, item: Item)
    requires Built(items, position, current, rank, seenSnapshot) && item.token != ""
    requires rank <= item.kind.Rank() && !(item.kind == Snapshot && seenSnapshot)
    ensures Built(items + [item], Cursor(position.item + 1, 0), None, item.kind.Rank(), seenSnapshot || item.kind == Snapshot)
  {
    PlanSnoc(items, item);
    var all := items + [item];
    assert all[|items|] == item && forall i :: 0 <= i < |items| ==> all[i] == items[i];
    hide PlanItems;
  }

  lemma InTokenLater(emitted: seq<Item>, current: Option<Partial>, item: Item, d: Chunk)
    requires InToken(d, emitted, current)
    requires current.Some? ==> item.kind == current.value.kind && Digest(item.token) == current.value.hash && |item.token| == current.value.total
    ensures InToken(d, emitted + [item], None)
  {
    var all := emitted + [item];
    if i :| 0 <= i < |emitted| && PieceOf(d, emitted[i]) {
      assert PieceOf(d, all[i]);
    } else {
      assert PieceOf(d, all[|emitted|]);
    }
  }

  ghost predicate Advances(before: seq<Item>, s: Scan, c: Chunk, t: Scan) {
    && ScanBuilt(before, t) && t.position == StepCursor(s.position, c)
    && Tokens(t.emitted) + Begun(t.current) == Tokens(s.emitted) + Begun(s.current) + c.data
    && InToken(c, t.emitted, t.current)
    && forall d :: InToken(d, s.emitted, s.current) ==> InToken(d, t.emitted, t.current)
  }

  // A chunk that leaves its token incomplete.
  lemma ScanBegins(before: seq<Item>, s: Scan, c: Chunk)
    requires ScanBuilt(before, s) && ScanChunk(s, c).Success? && ScanChunk(s, c).value.current.Some?
    ensures Advances(before, s, c, ScanChunk(s, c).value)
  {
    hide PlanItems, Tokens, PieceOf;
  }

  // A chunk that completes its token.
  lemma ScanCompletes(before: seq<Item>, s: Scan, c: Chunk)
    requires ScanBuilt(before, s) && ScanChunk(s, c).Success? && ScanChunk(s, c).value.current.None?
    ensures Advances(before, s, c, ScanChunk(s, c).value)
  {
    hide PlanItems;
    var t := ScanChunk(s, c).value;
    var item := t.emitted[|t.emitted| - 1];
    assert t.emitted == s.emitted + [item] && before + t.emitted == before + s.emitted + [item];
    TokensSnoc(s.emitted, item);
    BuiltSnoc(before + s.emitted, s.position, s.current, s.rank, s.seenSnapshot, item);
    assert PieceOf(c, t.emitted[|s.emitted|]);
    assert InToken(c, t.emitted, t.current);
    hide InToken, Built, Tokens;
    forall d | InToken(d, s.emitted, s.current)
      ensures InToken(d, t.emitted, t.current)
    {
      InTokenLater(s.emitted, s.current, item, d);
    }
  }

  lemma {:induction false} ScanBuilds(before: seq<Item>, s: Scan, chunks: seq<Chunk>)
    requires ScanBuilt(before, s) && s.emitted == [] && ScanChunks(s, chunks).Success?
    ensures var t := ScanChunks(s, chunks).value;
      && ScanBuilt(before, t) && t.position == After(s.position, chunks)
      && Begun(s.current) + Data(chunks) == Tokens(t.emitted) + Begun(t.current)
      && forall i :: 0 <= i < |chunks| ==> InToken(chunks[i], t.emitted, t.current)
  {
    hide ScanChunk, ScanBuilt, InToken, StepCursor;
    if chunks != [] {
      var init, c := chunks[..|chunks| - 1], chunks[|chunks| - 1];
      ScanBuilds(before, s, init);
      if ScanChunks(s, chunks).value.current.Some? {
        ScanBegins(before, ScanChunks(s, init).value, c);
      } else {
        ScanCompletes(before, ScanChunks(s, init).value, c);
      }
    }
  }

  // Feeding an assembler any batches at all, refused ones included.
  datatype Fed = Fed(assembly: Assembly, items: seq<Item>)

  function Feed(space: string, batches: seq<Batch>): Fed {
    if batches == [] then Fed(NewAssembly(space), [])
    else
      var f := Feed(space, batches[..|batches| - 1]);
      var added := AddBatch(f.assembly, batches[|batches| - 1]);
      Fed(added.assembly, f.items + if added.items.Success? then added.items.value else [])
  }

  ghost predicate AssemblyBuilt(items: seq<Item>, a: Assembly) {
    Built(items, a.expected, a.current, a.rank, a.seenSnapshot)
  }

  // One batch, accepted and not a replay: it continues the stream of this Space
  // where it stands; its bytes are those of the tokens it completes and of the one
  // it leaves begun, and every chunk carries the digest, kind and size of its
  // token.
  lemma AcceptedContinues(items: seq<Item>, a: Assembly, b: Batch)
    requires AssemblyBuilt(items, a) && AddBatch(a, b).items.Success? && a.last != Some(b)
    ensures b.space == a.space && b.start == a.expected && !a.terminal && (a.ack.Some? ==> a.ack.value == b.ack)
    ensures var after, more := AddBatch(a, b).assembly, AddBatch(a, b).items.value;
      && AssemblyBuilt(items + more, after)
      && after.space == a.space && after.last == Some(b) && after.ack == Some(b.ack) && after.terminal == b.done
      && after.expected == After(b.start, b.chunks)
      && (if b.done then b.next.None? && after.current.None? else b.next == Some(after.expected))
      && Begun(a.current) + Data(b.chunks) == Tokens(more) + Begun(after.current)
      && forall i :: 0 <= i < |b.chunks| ==> InToken(b.chunks[i], more, after.current)
  {
    hide ScanChunks, Built, InToken;
    assert items + [] == items;
    ScanBuilds(items, Opening(a), b.chunks);
  }

  // So whatever an assembler is fed, its tokens are not empty, in kind order, and
  // at most one of them is a snapshot.
  lemma {:induction false} FedIsPlan(space: string, batches: seq<Batch>)
    ensures var f := Feed(space, batches); PlanItems(f.items) && AssemblyBuilt(f.items, f.assembly) && f.assembly.space == space
  {
    hide AddBatch;
    if batches != [] {
      var b, f := batches[|batches| - 1], Feed(space, batches[..|batches| - 1]);
      FedIsPlan(space, batches[..|batches| - 1]);
      AddKeepsBuilt(f.items, f.assembly, b);
    }
  }

  lemma AddKeepsBuilt(items: seq<Item>, a: Assembly, b: Batch)
    requires AssemblyBuilt(items, a)
    ensures var added := AddBatch(a, b);
      AssemblyBuilt(items + (if added.items.Success? then added.items.value else []), added.assembly) && added.assembly.space == a.space
  {
    assert items + [] == items;
    if AddBatch(a, b).items.Success? && a.last != Some(b) {
      AcceptedContinues(items, a, b);
    }
    hide ScanChunks, Built;
  }
}
