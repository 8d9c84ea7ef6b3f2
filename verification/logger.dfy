/**
 * The job log sink's line splitter: a `bufio.Scanner` split function that
 * breaks on `\n`, or on `\r` when no `\n` is left, and `Write`, which turns
 * an arbitrary byte write into complete log records.
 */
module Logger {
  import opened Wrappers

  newtype byte = b: int | 0 <= b < 256

  type Bytes = seq<byte>

  const LF: byte := 10
  const CR: byte := 13

  predicate IsTerminator(b: byte) {
    b == LF || b == CR
  }

  /** `i` is the first position of `b` in `data`. */
  predicate FirstIndexOf(data: Bytes, b: byte, i: int) {
    0 <= i < |data| && data[i] == b && forall j :: 0 <= j < i ==> data[j] != b
  }

  /** `bytes.IndexByte`. */
  function IndexByte(data: Bytes, b: byte): (r: Option<nat>)
    ensures r.Some? ==> FirstIndexOf(data, b, r.value)
    ensures r.None? ==> b !in data
  {
    if |data| == 0 then None
    else if data[0] == b then Some(0)
    else
      match IndexByte(data[1..], b)
      case None => None
      case Some(i) => Some(i + 1)
  }

  /** `dropCR`: at most one trailing `\r` is removed, and nothing else. */
  function DropCR(data: Bytes): (r: Bytes)
    ensures |data| - 1 <= |r| <= |data|
    ensures r == data[..|r|]
    ensures |r| < |data| <==> (|data| > 0 && data[|data| - 1] == CR)
  {
    if |data| > 0 && data[|data| - 1] == CR then data[..|data| - 1] else data
  }

  /** What a split function returns: bytes to consume, and a token (nil asks for more data). */
  datatype Split = Split(advance: nat, token: Option<Bytes>)

  /** `ScanLines`. */
  function ScanLines(data: Bytes, atEOF: bool): (r: Split)
    ensures r.advance <= |data|
    ensures atEOF && |data| == 0 ==> r == Split(0, None)
    ensures forall i :: FirstIndexOf(data, LF, i) ==> r == Split(i + 1, Some(DropCR(data[..i])))
    ensures LF !in data ==>
      forall i :: FirstIndexOf(data, CR, i) ==> r == Split(i + 1, Some(DropCR(data[..i])))
    ensures LF !in data && CR !in data ==>
      r == if atEOF && |data| > 0 then Split(|data|, Some(data)) else Split(0, None)
  {
    if atEOF && |data| == 0 then Split(0, None)
    else
      match IndexByte(data, LF)
      case Some(i) => Split(i + 1, Some(DropCR(data[..i])))
      case None =>
        match IndexByte(data, CR)
        case Some(i) => Split(i + 1, Some(DropCR(data[..i])))
        case None => if atEOF then Split(|data|, Some(DropCR(data))) else Split(0, None)
  }

  /**
   * One successful `Scan` over the unread rest of a write held in memory: the
   * split function is asked without EOF first and, when it wants more data,
   * again at EOF. The result is always the EOF answer.
   */
  function ScanStep(data: Bytes): (r: Split)
    requires |data| > 0
    ensures 0 < r.advance <= |data| && r.token.Some?
  {
    var early := ScanLines(data, false);
    if early.token.Some? then early else ScanLines(data, true)
  }

  /** Asking without EOF first changes nothing for data held in memory. */
  lemma ScanStepIsEOFSplit(data: Bytes)
    requires |data| > 0
    ensures ScanStep(data) == ScanLines(data, true)
  {
  }

  /** The tokens the scanner yields for one write, in order. */
  function Tokens(data: Bytes): (ts: seq<Bytes>)
    ensures |data| == 0 <==> ts == []
    decreases |data|
  {
    if |data| == 0 then []
    else
      var s := ScanStep(data);
      [s.token.value] + Tokens(data[s.advance..])
  }

  /** No token contains a `\n`. */
  lemma {:induction false} TokensAreLines(data: Bytes)
    ensures forall i :: 0 <= i < |Tokens(data)| ==> LF !in Tokens(data)[i]
    decreases |data|
  {
    if |data| > 0 {
      var s := ScanStep(data);
      TokensAreLines(data[s.advance..]);
      var tok := s.token.value;
      assert LF !in tok by {
        match IndexByte(data, LF)
        case Some(i) =>
        case None =>
      }
      assert Tokens(data) == [tok] + Tokens(data[s.advance..]);
    }
  }

  // ------------------------------------------------------------ helpers on lines

  function NonEmpty(ts: seq<Bytes>): seq<Bytes> {
    if ts == [] then []
    else (if ts[0] == [] then [] else [ts[0]]) + NonEmpty(ts[1..])
  }

  function ButLast(ts: seq<Bytes>): seq<Bytes> {
    if ts == [] then [] else ts[..|ts| - 1]
  }

  function LastOr(ts: seq<Bytes>): Bytes {
    if ts == [] then [] else ts[|ts| - 1]
  }

  function Flatten(ts: seq<Bytes>): Bytes {
    if ts == [] then [] else ts[0] + Flatten(ts[1..])
  }

  /** The bytes that are not line terminators. */
  function Text(data: Bytes): Bytes {
    if data == [] then [] else (if IsTerminator(data[0]) then [] else [data[0]]) + Text(data[1..])
  }

  predicate LineEnd(p: Bytes) {
    |p| > 0 && IsTerminator(p[|p| - 1])
  }

  lemma {:induction false} NonEmptyAppend(a: seq<Bytes>, b: seq<Bytes>)
    ensures NonEmpty(a + b) == NonEmpty(a) + NonEmpty(b)
    decreases |a|
  {
    if a != [] {
      assert (a + b)[1..] == a[1..] + b;
      NonEmptyAppend(a[1..], b);
    } else {
      assert a + b == b;
    }
  }

  lemma {:induction false} FlattenAppend(a: seq<Bytes>, b: seq<Bytes>)
    ensures Flatten(a + b) == Flatten(a) + Flatten(b)
    decreases |a|
  {
    if a != [] {
      assert (a + b)[1..] == a[1..] + b;
      FlattenAppend(a[1..], b);
    } else {
      assert a + b == b;
    }
  }

  lemma {:induction false} FlattenNonEmpty(ts: seq<Bytes>)
    ensures Flatten(NonEmpty(ts)) == Flatten(ts)
    decreases |ts|
  {
    if ts != [] {
      FlattenNonEmpty(ts[1..]);
      FlattenAppend(if ts[0] == [] then [] else [ts[0]], NonEmpty(ts[1..]));
    }
  }

  lemma {:induction false} TextAppend(a: Bytes, b: Bytes)
    ensures Text(a + b) == Text(a) + Text(b)
    decreases |a|
  {
    if a != [] {
      assert (a + b)[1..] == a[1..] + b;
      TextAppend(a[1..], b);
    } else {
      assert a + b == b;
    }
  }

  lemma TextOfTerminator(b: byte)
    requires IsTerminator(b)
    ensures Text([b]) == []
  {
    assert [b][1..] == [];
  }

  lemma TextDropCR(data: Bytes)
    ensures Text(DropCR(data)) == Text(data)
  {
    if |data| > 0 && data[|data| - 1] == CR {
      assert data == data[..|data| - 1] + [CR];
      TextAppend(data[..|data| - 1], [CR]);
      TextOfTerminator(CR);
    }
  }

  /** The scanner only ever drops line terminators: every other byte reaches a token, in order. */
  lemma {:induction false} TokensKeepText(data: Bytes)
    ensures Text(Flatten(Tokens(data))) == Text(data)
    decreases |data|
  {
    if |data| > 0 {
      var adv, tok := TokensHead(data);
      TokensKeepText(data[adv..]);
      ConsKeepsText(data, adv, tok, Tokens(data[adv..]), Tokens(data));
    }
  }

  /** The first token of a non-empty write, the bytes it consumes, and the text it keeps. */
  lemma TokensHead(data: Bytes) returns (adv: nat, tok: Bytes)
    requires |data| > 0
    ensures 0 < adv <= |data| && Tokens(data) == [tok] + Tokens(data[adv..])
    ensures Text(tok) == Text(data[..adv])
  {
    var s := ScanStep(data);
    adv, tok := s.advance, s.token.value;
    StepKeepsText(data);
  }

  /** A token that keeps the text of the bytes it consumes, before tokens that keep the text of the rest. */
  lemma ConsKeepsText(data: Bytes, adv: nat, tok: Bytes, ts: seq<Bytes>, all: seq<Bytes>)
    requires 0 < adv <= |data| && all == [tok] + ts
    requires Text(tok) == Text(data[..adv]) && Text(Flatten(ts)) == Text(data[adv..])
    ensures Text(Flatten(all)) == Text(data)
  {
    FlattenCons(tok, ts);
    TextAppend(tok, Flatten(ts));
    TextAppend(data[..adv], data[adv..]);
    assert data[..adv] + data[adv..] == data;
  }

  lemma FlattenCons(t: Bytes, ts: seq<Bytes>)
    ensures Flatten([t] + ts) == t + Flatten(ts)
  {
    assert ([t] + ts)[1..] == ts;
  }

  /** One scanning step keeps the text of the bytes it consumes. */
  lemma StepKeepsText(data: Bytes)
    requires |data| > 0
    ensures Text(ScanStep(data).token.value) == Text(data[..ScanStep(data).advance])
  {
    match IndexByte(data, LF)
    case Some(i) =>
      TextCut(data, i);
    case None =>
      match IndexByte(data, CR)
      case Some(i) =>
        TextCut(data, i);
      case None =>
        assert data[..ScanStep(data).advance] == data;
  }

  /** Cutting at a terminator at `i`: the token `DropCR(data[..i])` keeps the text of `data[..i+1]`. */
  lemma TextCut(data: Bytes, i: nat)
    requires i < |data| && IsTerminator(data[i])
    ensures Text(DropCR(data[..i])) == Text(data[..i + 1])
  {
    assert data[..i + 1] == data[..i] + [data[i]];
    TextAppend(data[..i], [data[i]]);
    TextOfTerminator(data[i]);
    TextDropCR(data[..i]);
  }

  // ------------------------------------------------------------------ the sink

  /** The logger's state between writes: its buffered fragment (`remainingString`). */
  datatype Sink = Sink(remaining: Bytes)

  /**
   * The records a write emits: every non-empty token but the last, then the
   * last token when it is non-empty and the write ends in `\n` or `\r`.
   */
  function WriteRecords(p: Bytes): seq<Bytes> {
    var ts := Tokens(p);
    NonEmpty(ButLast(ts)) + (if LineEnd(p) && LastOr(ts) != [] then [LastOr(ts)] else [])
  }

  /**
   * The fragment kept after a write: it is cleared as soon as one record is
   * emitted from the scan loop, and the last token is appended to it when the
   * write does not end a line.
   */
  function WriteRemaining(remaining: Bytes, p: Bytes): Bytes {
    var ts := Tokens(p);
    var kept := if NonEmpty(ButLast(ts)) == [] then remaining else [];
    if LineEnd(p) then kept else kept + LastOr(ts)
  }

  lemma StepRecords(consumed: seq<Bytes>, tok: Bytes)
    ensures NonEmpty(ButLast(consumed + [tok]))
         == NonEmpty(ButLast(consumed)) + (if LastOr(consumed) != [] then [LastOr(consumed)] else [])
  {
    assert ButLast(consumed + [tok]) == consumed;
    if consumed != [] {
      assert consumed == ButLast(consumed) + [LastOr(consumed)];
      NonEmptyAppend(ButLast(consumed), [LastOr(consumed)]);
      assert NonEmpty([LastOr(consumed)]) == if LastOr(consumed) != [] then [LastOr(consumed)] else [];
    }
  }

  /** One turn of the scan loop: the held-back token is emitted if non-empty, and the new token is held back. */
  lemma ScanLoopStep(tokens: seq<Bytes>, i: nat)
    requires i < |tokens|
    ensures NonEmpty(ButLast(tokens[..i + 1]))
         == NonEmpty(ButLast(tokens[..i])) + (if LastOr(tokens[..i]) != [] then [[] + LastOr(tokens[..i])] else [])
    ensures LastOr(tokens[..i + 1]) == tokens[i]
  {
    StepRecords(tokens[..i], tokens[i]);
    assert tokens[..i + 1] == tokens[..i] + [tokens[i]];
    assert [] + LastOr(tokens[..i]) == LastOr(tokens[..i]);
  }

  /**
   * The `for r.Scan()` loop of `Write`: each token is held back until the next
   * one arrives, and a held-back non-empty token is emitted after the buffer
   * has been cleared.
   */
  method ScanLoop(p: Bytes, fragment: Bytes) returns (records: seq<Bytes>, lastLine: Bytes, remaining: Bytes)
    ensures records == NonEmpty(ButLast(Tokens(p)))
    ensures lastLine == LastOr(Tokens(p))
    ensures remaining == if |records| == 0 then fragment else []
  {
    var tokens := Tokens(p);
    records, lastLine, remaining := [], [], fragment;
    var i := 0;
    while i < |tokens|
      invariant i <= |tokens|
      invariant lastLine == LastOr(tokens[..i])
      invariant records == NonEmpty(ButLast(tokens[..i]))
      invariant remaining == if |records| == 0 then fragment else []
    {
      ScanLoopStep(tokens, i);
      if lastLine != [] {
        remaining := [];
        records := records + [remaining + lastLine];
      }
      lastLine := tokens[i];
      i := i + 1;
    }
    assert tokens[..i] == tokens;
  }

  /** `Logger.Write`. */
  method Write(l: Sink, p: Bytes) returns (l': Sink, records: seq<Bytes>, n: nat)
    ensures n == |p|
    ensures records == WriteRecords(p)
    ensures l'.remaining == WriteRemaining(l.remaining, p)
    ensures |p| == 0 ==> records == [] && l' == l
  {
    l', records, n := l, [], 0;
    if |p| == 0 {
      return;
    }
    var lineEnd := IsTerminator(p[|p| - 1]);
    var lastLine, remaining;
    records, lastLine, remaining := ScanLoop(p, l.remaining);
    if !lineEnd {
      remaining := remaining + lastLine;
    } else if lastLine != [] {
      records := records + [lastLine];
    }
    l' := Sink(remaining);
    n := |p|;
  }

  lemma {:induction false} NonEmptyMembers(ts: seq<Bytes>)
    ensures forall i :: 0 <= i < |NonEmpty(ts)| ==> NonEmpty(ts)[i] != [] && NonEmpty(ts)[i] in ts
    decreases |ts|
  {
    if ts != [] {
      NonEmptyMembers(ts[1..]);
    }
  }

  /** Every record is a complete, non-empty line without `\n`. */
  lemma WriteRecordsAreLines(p: Bytes)
    ensures forall i :: 0 <= i < |WriteRecords(p)| ==> WriteRecords(p)[i] != [] && LF !in WriteRecords(p)[i]
  {
    var ts := Tokens(p);
    TokensAreLines(p);
    NonEmptyMembers(ButLast(ts));
    forall i | 0 <= i < |NonEmpty(ButLast(ts))|
      ensures LF !in NonEmpty(ButLast(ts))[i]
    {
      assert NonEmpty(ButLast(ts))[i] in ts;
    }
  }

  // ---------------------------------------------- writes in sequence, and the fix

  /** The records and final state of a sequence of writes made with `Write`. */
  function FeedAsWritten(l: Sink, writes: seq<Bytes>): (Sink, seq<Bytes>)
    decreases |writes|
  {
    if writes == [] then (l, [])
    else
      var l1 := Sink(WriteRemaining(l.remaining, writes[0]));
      var rest := FeedAsWritten(l1, writes[1..]);
      (rest.0, WriteRecords(writes[0]) + rest.1)
  }

  /** Writes fed in two batches leave what feeding them at once leaves. */
  lemma {:induction false} FeedAsWrittenAppend(l: Sink, ws1: seq<Bytes>, ws2: seq<Bytes>)
    ensures var first := FeedAsWritten(l, ws1);
      var second := FeedAsWritten(first.0, ws2);
      FeedAsWritten(l, ws1 + ws2) == (second.0, first.1 + second.1)
    decreases |ws1|
  {
    if ws1 == [] {
      assert ws1 + ws2 == ws2;
      var second := FeedAsWritten(l, ws2);
      assert [] + second.1 == second.1;
    } else {
      var h, t := ws1[0], ws1[1..];
      var l1 := Sink(WriteRemaining(l.remaining, h));
      assert [h] + t == ws1;
      assert [h] + (t + ws2) == ws1 + ws2;
      FeedAsWrittenCons(l, h, t);
      FeedAsWrittenCons(l, h, t + ws2);
      FeedAsWrittenAppend(l1, t, ws2);
      var first, second := FeedAsWritten(l1, t), FeedAsWritten(FeedAsWritten(l1, t).0, ws2);
      ConcatAssoc(WriteRecords(h), first.1, second.1);
    }
  }

  /**
   * The write the design describes: the buffered fragment is put in front of
   * the new bytes before they are split, so a line cut across two writes is
   * emitted whole.
   */
  function WriteIntended(l: Sink, p: Bytes): (r: (Sink, seq<Bytes>))
    ensures p == [] ==> r == (l, [])
    ensures LineEnd(p) ==> r.0.remaining == []
  {
    if p == [] then (l, [])
    else
      var ts := Tokens(l.remaining + p);
      (Sink(if LineEnd(p) then [] else LastOr(ts)),
       NonEmpty(ButLast(ts)) + (if LineEnd(p) && LastOr(ts) != [] then [LastOr(ts)] else []))
  }

  function FeedIntended(l: Sink, writes: seq<Bytes>): (Sink, seq<Bytes>)
    decreases |writes|
  {
    if writes == [] then (l, [])
    else
      var first := WriteIntended(l, writes[0]);
      var rest := FeedIntended(first.0, writes[1..]);
      (rest.0, first.1 + rest.1)
  }

  lemma FlattenSplitLast(ts: seq<Bytes>)
    requires ts != []
    ensures Flatten(ts) == Flatten(ButLast(ts)) + LastOr(ts)
  {
    assert ts == ButLast(ts) + [LastOr(ts)];
    FlattenAppend(ButLast(ts), [LastOr(ts)]);
    assert Flatten([LastOr(ts)]) == LastOr(ts) + Flatten([]);
  }

  /** A corrected write keeps every non-terminator byte of the buffer and the write, in order. */
  lemma WriteIntendedKeepsText(l: Sink, p: Bytes)
    ensures Text(Flatten(WriteIntended(l, p).1)) + Text(WriteIntended(l, p).0.remaining) == Text(l.remaining + p)
  {
    if p == [] {
      assert l.remaining + p == l.remaining;
    } else {
      var data := l.remaining + p;
      var ts := Tokens(data);
      var r := WriteIntended(l, p);
      var front := NonEmpty(ButLast(ts));
      var tail := if LineEnd(p) && LastOr(ts) != [] then [LastOr(ts)] else [];
      TokensKeepText(data);
      FlattenSplitLast(ts);
      FlattenNonEmpty(ButLast(ts));
      FlattenAppend(front, tail);
      assert Flatten(tail) == if LineEnd(p) then LastOr(ts) else [] by {
        if tail != [] {
          assert Flatten(tail) == LastOr(ts) + Flatten([]);
        }
      }
      TextAppend(Flatten(ButLast(ts)), LastOr(ts));
      TextAppend(Flatten(front), Flatten(tail));
    }
  }

  function Concat(writes: seq<Bytes>): Bytes
    decreases |writes|
  {
    if writes == [] then [] else writes[0] + Concat(writes[1..])
  }

  /**
   * Across any sequence of corrected writes, the emitted records followed by
   * the buffered fragment hold exactly the non-terminator bytes written, in order.
   */
  lemma {:induction false} FeedIntendedKeepsText(l: Sink, writes: seq<Bytes>)
    ensures Text(Flatten(FeedIntended(l, writes).1)) + Text(FeedIntended(l, writes).0.remaining)
         == Text(l.remaining + Concat(writes))
    decreases |writes|
  {
    if writes == [] {
      assert l.remaining + Concat(writes) == l.remaining;
    } else {
      var w, ws := writes[0], writes[1..];
      var first := WriteIntended(l, w);
      var rest := FeedIntended(first.0, ws);
      assert FeedIntended(l, writes) == (rest.0, first.1 + rest.1);
      FeedIntendedKeepsText(first.0, ws);
      WriteIntendedKeepsText(l, w);
      assert Concat(writes) == w + Concat(ws);
      KeepTextCompose(first.1, rest.1, l.remaining, first.0.remaining, rest.0.remaining, w, Concat(ws));
    }
  }

  /** Two byte-keeping steps in a row keep the bytes of both inputs. */
  lemma KeepTextCompose(r1: seq<Bytes>, r2: seq<Bytes>, rem0: Bytes, rem1: Bytes, rem2: Bytes, w: Bytes, ws: Bytes)
    requires Text(Flatten(r1)) + Text(rem1) == Text(rem0 + w)
    requires Text(Flatten(r2)) + Text(rem2) == Text(rem1 + ws)
    ensures Text(Flatten(r1 + r2)) + Text(rem2) == Text(rem0 + (w + ws))
  {
    FlattenAppend(r1, r2);
    TextAppend(Flatten(r1), Flatten(r2));
    TextAppend(rem1, ws);
    ConcatAssoc(rem0, w, ws);
    TextAppend(rem0 + w, ws);
    Regroup(Text(Flatten(r1)), Text(Flatten(r2)), Text(rem1), Text(rem2), Text(rem0 + w), Text(ws));
  }

  lemma ConcatAssoc<T>(a: seq<T>, b: seq<T>, c: seq<T>)
    ensures a + (b + c) == (a + b) + c
  {
  }

  lemma Regroup(a: Bytes, b: Bytes, c: Bytes, d: Bytes, e: Bytes, f: Bytes)
    requires e == a + c
    requires b + d == c + f
    ensures (a + b) + d == e + f
  {
    assert (a + b) + d == a + (b + d);
    assert e + f == a + (c + f);
  }

  lemma TokensOfAB()
    ensures Tokens([97, 98]) == [[97, 98]]
  {
    var ab: Bytes := [97, 98];
    ScanStepIsEOFSplit(ab);
    assert ScanStep(ab) == Split(2, Some(ab));
    assert ab[2..] == [];
  }

  lemma TokensOfCN()
    ensures Tokens([99, 10]) == [[99]]
  {
    var cn: Bytes := [99, 10];
    assert FirstIndexOf(cn, LF, 1);
    ScanStepIsEOFSplit(cn);
    assert cn[..1] == [99];
    assert ScanStep(cn) == Split(2, Some([99]));
    assert cn[2..] == [];
  }

  lemma TokensOfABCN()
    ensures Tokens([97, 98, 99, 10]) == [[97, 98, 99]]
  {
    var abcn: Bytes := [97, 98, 99, 10];
    assert FirstIndexOf(abcn, LF, 3);
    ScanStepIsEOFSplit(abcn);
    assert abcn[..3] == [97, 98, 99];
    assert ScanStep(abcn) == Split(4, Some([97, 98, 99]));
    assert abcn[4..] == [];
  }

  lemma AsWrittenAB_CN()
    ensures FeedAsWritten(Sink([]), [[97, 98], [99, 10]]) == (Sink([97, 98]), [[99]])
  {
    var ab: Bytes := [97, 98];
    var cn: Bytes := [99, 10];
    TokensOfAB();
    TokensOfCN();
    assert NonEmpty([]) == [];
    var writes := [ab, cn];
    assert writes[1..] == [cn];
    assert [cn][1..] == [];
    assert WriteRecords(ab) == [] && WriteRemaining([], ab) == ab;
    assert WriteRecords(cn) == [[99]] && WriteRemaining(ab, cn) == ab;
    assert FeedAsWritten(Sink(ab), [cn]) == (Sink(ab), [[99]]);
  }

  lemma IntendedAB_CN()
    ensures FeedIntended(Sink([]), [[97, 98], [99, 10]]) == (Sink([]), [[97, 98, 99]])
  {
    var ab: Bytes := [97, 98];
    var cn: Bytes := [99, 10];
    var abc: Bytes := [97, 98, 99];
    TokensOfAB();
    TokensOfABCN();
    assert NonEmpty([]) == [];
    assert Sink([]).remaining + ab == ab;
    assert Tokens(Sink([]).remaining + ab) == [ab];
    assert !LineEnd(ab);
    assert ButLast([ab]) == [] && LastOr([ab]) == ab;
    assert ab != [];
    var r1 := WriteIntended(Sink([]), ab);
    assert r1.0 == Sink(ab);
    assert r1.1 == [];
    assert Sink(ab).remaining + cn == [97, 98, 99, 10];
    assert Tokens(Sink(ab).remaining + cn) == [abc];
    assert LineEnd(cn);
    assert ButLast([abc]) == [] && LastOr([abc]) == abc;
    assert cn != [];
    var r2 := WriteIntended(Sink(ab), cn);
    assert r2.0 == Sink([]);
    assert r2.1 == [abc];
    var writes := [ab, cn];
    assert writes[1..] == [cn];
    assert [cn][1..] == [];
    assert FeedIntended(Sink(ab), [cn]) == (Sink([]), [abc]);
  }

  /**
   * The code as written never logs a fragment cut across writes: writing
   * `ab` and then `c\n` emits the record `c`, where the corrected write
   * emits `abc`, and `ab` stays buffered, out of its place in the text. It
   * stays there until a later write that emits a record from its scan loop
   * clears it: after a third write `x\ny\n` nothing is buffered, and the
   * three writes logged `c`, `x` and `y`, so `ab` was never logged.
   */
  lemma FeedAsWrittenLosesFragment()
    ensures FeedAsWritten(Sink([]), [[97, 98], [99, 10]]).1 == [[99]]
    ensures FeedAsWritten(Sink([]), [[97, 98], [99, 10]]).0.remaining == [97, 98]
    ensures FeedIntended(Sink([]), [[97, 98], [99, 10]]).1 == [[97, 98, 99]]
    ensures Text(Flatten(FeedAsWritten(Sink([]), [[97, 98], [99, 10]]).1))
          + Text(FeedAsWritten(Sink([]), [[97, 98], [99, 10]]).0.remaining)
         != Text(Concat([[97, 98], [99, 10]]))
    ensures FeedAsWritten(Sink([97, 98]), [[120, 10, 121, 10]]) == (Sink([]), [[120], [121]])
  {
    AsWrittenAB_CN();
    IntendedAB_CN();
    TextOfExample();
    FeedXY();
  }

  lemma TokensOfXNYN()
    ensures Tokens([120, 10, 121, 10]) == [[120], [121]]
  {
    var d: Bytes := [120, 10, 121, 10];
    var yn: Bytes := [121, 10];
    assert FirstIndexOf(d, LF, 1);
    ScanStepIsEOFSplit(d);
    assert d[..1] == [120];
    assert ScanStep(d) == Split(2, Some([120]));
    assert d[2..] == yn;
    assert FirstIndexOf(yn, LF, 1);
    ScanStepIsEOFSplit(yn);
    assert yn[..1] == [121];
    assert ScanStep(yn) == Split(2, Some([121]));
    assert yn[2..] == [];
  }

  lemma WriteOfXNYN(remaining: Bytes)
    ensures WriteRecords([120, 10, 121, 10]) == [[120], [121]]
    ensures WriteRemaining(remaining, [120, 10, 121, 10]) == []
  {
    var xy: Bytes := [120, 10, 121, 10];
    var x: Bytes := [120];
    TokensOfXNYN();
    var ts := Tokens(xy);
    assert ButLast(ts) == [x] by {
      assert ts[..1] == [x];
    }
    assert LastOr(ts) == [121];
    assert NonEmpty([x]) == [x] by {
      assert [x][1..] == [];
    }
    assert LineEnd(xy) by {
      assert xy[3] == LF;
    }
  }

  /** With `ab` buffered, `x\ny\n` logs `x` and `y` and leaves nothing buffered. */
  lemma FeedXY()
    ensures FeedAsWritten(Sink([97, 98]), [[120, 10, 121, 10]]) == (Sink([]), [[120], [121]])
  {
    var ab: Bytes := [97, 98];
    var xy: Bytes := [120, 10, 121, 10];
    var none: seq<Bytes> := [];
    WriteOfXNYN(ab);
    FeedAsWrittenCons(Sink(ab), xy, none);
    assert [xy] == [xy] + none;
    assert FeedAsWritten(Sink([]), none) == (Sink([]), []);
    var r3 := WriteRecords(xy);
    assert r3 + none == r3;
  }

  /** One write, then the rest. */
  lemma FeedAsWrittenCons(l: Sink, p: Bytes, ps: seq<Bytes>)
    ensures FeedAsWritten(l, [p] + ps)
         == (FeedAsWritten(Sink(WriteRemaining(l.remaining, p)), ps).0,
             WriteRecords(p) + FeedAsWritten(Sink(WriteRemaining(l.remaining, p)), ps).1)
  {
    assert ([p] + ps)[1..] == ps;
  }

  lemma TextOfExample()
    ensures Text(Flatten([[99]])) + Text([97, 98]) != Text(Concat([[97, 98], [99, 10]]))
  {
    var ab: Bytes := [97, 98];
    var cn: Bytes := [99, 10];
    assert Flatten([[99]]) == [99];
    assert Text([99]) == [99];
    assert Text(ab) == ab;
    assert Concat([cn]) == cn + Concat([]);
    assert Concat([ab, cn]) == ab + cn;
    TextAppend(ab, cn);
    assert Text(cn) == [99] by {
      assert cn[1..] == [10];
      TextOfTerminator(LF);
    }
    assert ([99] + ab)[0] != (ab + [99])[0];
  }
}
