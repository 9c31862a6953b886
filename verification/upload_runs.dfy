/** What the client of an upload is told, request by request, and an upload from its first
    chunk to its publication. */
module UploadRuns {
  import opened Octets
  import opened Folders
  import opened Uploads

  // -------------------------------------------------------------- write calls, digests

  lemma StallsLater(accepted: seq<nat>, size: nat)
    requires accepted != [] && accepted[0] > 0 && size > 0
    ensures Stalls(accepted, size) <==> Stalls(accepted[1..], size - Min(accepted[0], size))
  {
    hide Sum;
    var rest, left := accepted[1..], size - Min(accepted[0], size);
    if Stalls(accepted, size) {
      var i :| 0 <= i < |accepted| && accepted[i] == 0 && Sum(accepted[..i]) < size;
      SumCons(accepted, i - 1);
      StallsAt(rest, left, i - 1);
    }
    if Stalls(rest, left) {
      var i :| 0 <= i < |rest| && rest[i] == 0 && Sum(rest[..i]) < left;
      SumCons(accepted, i);
      StallsAt(accepted, size, i + 1);
    }
  }

  /** A row of write calls takes everything unless one of them takes nothing first. */
  lemma {:induction false} TakenIff(accepted: seq<nat>, size: nat)
    ensures Taken(accepted, size) == size <==> !Stalls(accepted, size)
    decreases |accepted|
  {
    if size > 0 && accepted != [] {
      if accepted[0] == 0 {
        NothingTaken(accepted);
        StallsAt(accepted, size, 0);
      } else {
        StallsLater(accepted, size);
        TakenIff(accepted[1..], size - Min(accepted[0], size));
      }
    }
  }

  /** Then it takes what the calls before that one took. */
  lemma {:induction false} TakenUntil(accepted: seq<nat>, size: nat) returns (i: nat)
    requires Stalls(accepted, size)
    ensures i < |accepted| && accepted[i] == 0 && forall j :: 0 <= j < i ==> accepted[j] > 0
    ensures Taken(accepted, size) == Sum(accepted[..i])
    decreases |accepted|
  {
    if accepted[0] == 0 {
      NothingTaken(accepted);
      i := 0;
    } else {
      StallsLater(accepted, size);
      var k := TakenUntil(accepted[1..], size - Min(accepted[0], size));
      TakenIff(accepted[1..], size - Min(accepted[0], size));
      SumCons(accepted, k);
      i := k + 1;
      forall j | 0 <= j < i ensures accepted[j] > 0 { assert j > 0 ==> accepted[1..][j - 1] > 0; }
    }
  }

  lemma {:induction false} SumCons(sizes: seq<nat>, i: nat)
    requires i < |sizes|
    ensures Sum(sizes[..i + 1]) == sizes[0] + Sum(sizes[1..][..i])
    decreases i
  {
    SumGrows(sizes, i, i + 1);
    if i == 0 {
      assert sizes[..0] == [] && sizes[1..][..0] == [];
    } else {
      SumGrows(sizes[1..], i - 1, i);
      SumCons(sizes, i - 1);
    }
  }

  /** A digest is 64 lower-case hexadecimal characters. */
  lemma DigestIff(s: string)
    ensures IsDigest(s) <==> |s| == 64 && forall c :: c in s ==> c in "0123456789abcdef"
  {
    var digits := "0123456789abcdef";
    forall c | '0' <= c <= '9' || 'a' <= c <= 'f' ensures c in digits {
      assert digits[if c <= '9' then c as int - 48 else c as int - 87] == c;
    }
    assert forall i :: 0 <= i < |digits| ==> '0' <= digits[i] <= '9' || 'a' <= digits[i] <= 'f';
  }

  // ------------------------------------------------------------------ what is told

  /** The digest a chunk came with, if any, is its own. */
  predicate GoodDigest(t: Terms, data: Bytes, digest: Option<string>) {
    digest.None? || (IsDigest(Lower(digest.value)) && Lower(digest.value) == t.sha(data))
  }

  /** A chunk of the payload is taken exactly if its digest is right, it is not too long, the
      upload is open and not expired, and it lies within what is staged or begins behind it and
      is written in full; the offset told next is behind all that is staged. */
  lemma ChunkTold(t: Terms, payload: Bytes, ops: seq<Op>, replies: seq<Reply>, states: seq<State>, i: nat)
    requires Uploading(t, payload, ops, replies, states) && i < |ops| && ops[i].SendChunk?
    ensures var op, was, now := ops[i], states[i], states[i + 1];
            var data := SliceAt(payload, op.offset, op.size, op.garbage);
            var good := op.offset >= 0 && |data| <= t.maxChunk && GoodDigest(t, data, op.digest);
            var gone := was.status == Open && t.expiresAt < op.chunkNow;
            var size := if was.staging.Some? then |was.staging.value| else 0;
            if good && was.status == Open && !gone && was.staging.Some? then
              && (replies[i].Progressed? <==>
                    if op.offset < size then op.offset + |data| <= size
                    else op.offset == size && !Stalls(op.accepted, |data|))
              && (replies[i].Progressed? ==>
                    replies[i].progress == Progress(Max(size, op.offset + |data|), op.offset < size,
                                                    Max(size, op.offset + |data|) == |payload|))
              && (op.offset != size ==> now == was)
              && (op.offset == size ==>
                    now == was.(staging := Some(payload[..size + Taken(op.accepted, |data|)])))
            else
              && replies[i].Refused?
              && now == if good && gone then was.(status := Expired, staging := None) else was
  {
    var op, was := ops[i], states[i];
    var data := SliceAt(payload, op.offset, op.size, op.garbage);
    TraceKeeps(t, payload, ops, replies, states, i);
    TakenIff(op.accepted, |data|);
    assert Uploads.Step(t, payload, was, op, replies[i], states[i + 1]);
    hide Trace, Taken, Stalls, IsDigest, Lower;
    if was.staging.Some? {
      var staged := was.staging.value;
      assert staged == payload[..|staged|];
      if 0 <= op.offset < |staged| && op.offset + |data| <= |staged| {
        assert staged[op.offset..op.offset + |data|] == data;
      }
      if op.offset == |staged| {
        assert forall n :: 0 <= n <= |data| ==> staged + data[..n] == payload[..|staged| + n];
      }
    }
  }

  /** Who asks is told the status, expired once its time is past, and the offset that goes
      with it. */
  lemma StatusTold(t: Terms, payload: Bytes, ops: seq<Op>, replies: seq<Reply>, states: seq<State>, i: nat)
    requires Uploading(t, payload, ops, replies, states) && i < |ops| && ops[i].Ask?
    ensures var was := states[i];
            var gone := was.status == Open && t.expiresAt < ops[i].askNow;
            && states[i + 1] == (if gone then was.(status := Expired, staging := None) else was)
            && replies[i].Told?
            && replies[i].report.status == (if gone then Expired else was.status)
            && replies[i].report.next == match replies[i].report.status
                                         case Committed => |payload|
                                         case Aborted => 0
                                         case Expired => 0
                                         case _ => if was.staging.Some? then |was.staging.value| else 0
  {
    assert Uploads.Step(t, payload, states[i], ops[i], replies[i], states[i + 1]);
    hide Trace;
  }

  /** What stands under the target name when the rename happens, and what was seen there: it was
      looked at once, and again if something has appeared where nothing stood and may be
      replaced. */
  lemma AdmitsIff(overwrite: bool, first: Option<Entry>, race: Option<Option<Entry>>, later: Option<Option<Entry>>)
    ensures var second := if race.Some? then race.value else first;
            var again := overwrite && first.None? && second.Some?;
            var last := if again && later.Some? then later.value else second;
            Admits(overwrite, first, race, later) <==>
              && (first.Some? ==> overwrite && first.value.kind == Regular)
              && (again ==> second.value.kind == Regular)
              && (last.Some? ==> overwrite && last.value.kind != Directory)
  {
  }

  /** A finish is confirmed exactly if the upload was committed before, or is open, not expired,
      whole, of the promised digest, and admitted under its name; otherwise nothing is
      published. */
  lemma FinishTold(t: Terms, payload: Bytes, ops: seq<Op>, replies: seq<Reply>, states: seq<State>, i: nat)
    requires Uploading(t, payload, ops, replies, states) && i < |ops| && ops[i].Commit?
    ensures var op, was, now := ops[i], states[i], states[i + 1];
            var whole := was.status == Open && !(t.expiresAt < op.commitNow) && was.staging == Some(payload);
            var admitted := Admits(t.overwrite, was.target, op.race, op.later);
            var publishes := whole && t.sha(payload) == t.expected && admitted;
            && (replies[i].Finished? <==> was.status == Committed || (publishes && !op.commitDies))
            && now.published == was.published + (if publishes then [payload] else [])
            && (publishes ==> now.target == Some(Entry(Regular, payload)) && now.staging.None?)
            && (now.status == Committed <==> replies[i].Finished?)
            && (now.status == HashMismatch <==>
                  was.status == HashMismatch || (whole && t.sha(payload) != t.expected))
  {
    TraceKeeps(t, payload, ops, replies, states, i);
    assert Uploads.Step(t, payload, states[i], ops[i], replies[i], states[i + 1]);
    hide Trace, Admits;
    if states[i].staging.Some? && |states[i].staging.value| == |payload| {
      assert states[i].staging.value == payload[..|payload|] == payload;
    }
  }

  // ------------------------------------------------------------------ a whole upload

  /** Sent in slices of any size that a chunk may have, in order and before the upload expires,
      a payload of the promised size and digest is published under the target name. */
  method UploadWhole(u: Upload, payload: Bytes, size: nat, now: int) returns (r: Result<Receipt, UploadError>)
    requires u.Present() == Begun(u.target) && Startable(u.terms.overwrite, u.target)
    requires u.terms.total == |payload| && u.terms.sha(payload) == u.terms.expected
    requires !(u.terms.expiresAt < now) && 0 < size <= u.terms.maxChunk
    modifies u
    ensures r == Ok(Receipt(u.terms.expected, |payload|, old(u.target).Some?))
    ensures u.status == Committed && u.target == Some(Entry(Regular, payload)) && u.published == [payload]
  {
    var at := 0;
    while at < |payload|
      invariant 0 <= at <= |payload| && u.status == Open && u.staging == Some(payload[..at])
      invariant u.target == old(u.target) && u.published == []
    {
      var data := payload[at..Min(|payload|, at + size)];
      var sent := u.Chunk(now, at, data, None, []);
      assert payload[..at] + data == payload[..at + |data|] && data[..|data|] == data;
      at := at + |data|;
    }
    assert payload[..at] == payload;
    r := u.Finish(now, None, None, false);
    assert [] + [payload] == [payload];
  }
}
