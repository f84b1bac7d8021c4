/** The stream splitters of `erl/port/split_funs.go`, and the loop of Go's `bufio.Scanner` that drives them. */
module Splitters {
  import opened Types

  type Byte = x: int | 0 <= x < 256

  const NUL: Byte := 0

  /** How far to advance, and the token that was found, if any. */
  datatype Split = Split(advance: nat, token: Option<seq<Byte>>)

  type Splitter = (seq<Byte>, bool) -> Split

  /** `bytes.IndexByte` for NUL, or the length. */
  function IndexOfNul(data: seq<Byte>, from: nat): (k: nat)
    requires from <= |data|
    ensures from <= k <= |data| && (k < |data| ==> data[k] == NUL)
    ensures forall i :: from <= i < k ==> data[i] != NUL
    decreases |data| - from
  {
    if from == |data| || data[from] == NUL then from else IndexOfNul(data, from + 1)
  }

  /** `DecodeNULSplitFun`. */
  function DecodeNul(data: seq<Byte>, atEOF: bool): Split {
    var i := IndexOfNul(data, 0);
    if atEOF && |data| == 0 then Split(0, None)
    else if i < |data| then Split(i + 1, Some(data[0..i]))
    else if atEOF then Split(|data|, Some(data))
    else Split(0, None)
  }

  /** `DecodeNumBytesSplitFun`. */
  function DecodeNumBytes(num: nat, data: seq<Byte>, atEOF: bool): Split {
    if atEOF && |data| == 0 then Split(0, None)
    else if |data| >= num then Split(num, Some(data[0..num]))
    else if atEOF then Split(|data|, Some(data))
    else Split(0, None)
  }

  // ---------------------------------------------------------------- the scanner

  /** A token always makes progress, and is not changed by data that come later; at the end everything is used. */
  ghost predicate Steady(f: Splitter) {
    && (forall data, eof :: f(data, eof).advance <= |data|)
    && (forall data, eof :: f(data, eof).token.Some? ==> f(data, eof).advance > 0)
    && (forall data, eof :: f(data, eof).token == None ==> f(data, eof).advance == 0)
    && (forall data, more, eof {:trigger f(data + more, eof)} ::
          f(data, false).token.Some? ==> f(data + more, eof) == f(data, false))
    && (forall data :: f(data, true).token == None <==> data == [])
  }

  /** The tokens of a stream that is there at once. */
  ghost function Tokens(f: Splitter, data: seq<Byte>): seq<seq<Byte>>
    requires Steady(f)
    decreases |data|
  {
    var s := f(data, true);
    if s.token == None then [] else [s.token.value] + Tokens(f, data[s.advance..])
  }

  function Concat(parts: seq<seq<Byte>>): seq<Byte> {
    if parts == [] then [] else parts[0] + Concat(parts[1..])
  }

  /** What is found early is found in the whole stream. */
  lemma EarlyToken(f: Splitter, data: seq<Byte>, rest: seq<Byte>)
    requires Steady(f) && f(data, false).token.Some?
    ensures var s := f(data, false);
            s.advance <= |data|
            && Tokens(f, data + rest) == [s.token.value] + Tokens(f, data[s.advance..] + rest)
  {
    var s := f(data, false);
    assert f(data + rest, true) == s;
    assert (data + rest)[s.advance..] == data[s.advance..] + rest;
  }

  /** The scanner: it asks for a token with what it has, reads one more chunk if there is none, and asks once more at
      the end. However the stream is cut into chunks, the tokens are those of the whole. */
  method Scan(f: Splitter, chunks: seq<seq<Byte>>) returns (tokens: seq<seq<Byte>>)
    requires Steady(f)
    ensures tokens == Tokens(f, Concat(chunks))
  {
    tokens := [];
    var data: seq<Byte>, next, eof, done := [], 0, false, false;
    assert chunks[0..] == chunks && data + Concat(chunks) == Concat(chunks);
    while !done
      invariant 0 <= next <= |chunks| && (eof ==> next == |chunks|) && (done ==> data == [] && eof)
      invariant tokens + Tokens(f, data + Concat(chunks[next..])) == Tokens(f, Concat(chunks))
      decreases !done, |chunks| - next, !eof, |data|
    {
      ghost var rest := Concat(chunks[next..]);
      var s := Split(0, None);
      if |data| > 0 || eof {
        s := f(data, eof);
      }
      if s.token.Some? {
        if eof {
          assert data + rest == data && data[s.advance..] + rest == data[s.advance..];
        } else {
          EarlyToken(f, data, rest);
        }
        assert tokens + ([s.token.value] + Tokens(f, data[s.advance..] + rest))
            == (tokens + [s.token.value]) + Tokens(f, data[s.advance..] + rest);
        tokens := tokens + [s.token.value];
        data := data[s.advance..];
      } else if eof {
        done := true;
      } else if next < |chunks| {
        assert chunks[next..][0] == chunks[next] && chunks[next..][1..] == chunks[next + 1..];
        assert data + (chunks[next] + Concat(chunks[next + 1..])) == (data + chunks[next]) + Concat(chunks[next + 1..]);
        data := data + chunks[next];
        next := next + 1;
      } else {
        eof := true;
      }
    }
    assert data + Concat(chunks[next..]) == [];
  }

  // ---------------------------------------------------------------- the two splitters are steady

  lemma NulStays(data: seq<Byte>, more: seq<Byte>, from: nat)
    requires from <= |data| && IndexOfNul(data, from) < |data|
    ensures IndexOfNul(data + more, from) == IndexOfNul(data, from)
  {
    var k, l := IndexOfNul(data, from), IndexOfNul(data + more, from);
    assert forall i :: 0 <= i < |data| ==> (data + more)[i] == data[i];
  }

  lemma NulIsSteady()
    ensures Steady(DecodeNul)
  {
    forall data: seq<Byte>, more: seq<Byte>, eof: bool | DecodeNul(data, false).token.Some?
      ensures DecodeNul(data + more, eof) == DecodeNul(data, false)
    {
      NulStays(data, more, 0);
      var k := IndexOfNul(data, 0);
      assert (data + more)[0..k] == data[0..k];
    }
  }

  function NumBytes(num: nat): Splitter {
    (data, atEOF) => DecodeNumBytes(num, data, atEOF)
  }

  lemma NumBytesIsSteady(num: nat)
    requires num >= 1
    ensures Steady(NumBytes(num))
  {
    forall data: seq<Byte>, more: seq<Byte>, eof: bool | NumBytes(num)(data, false).token.Some?
      ensures NumBytes(num)(data + more, eof) == NumBytes(num)(data, false)
    {
      assert (data + more)[0..num] == data[0..num];
    }
  }

  // ---------------------------------------------------------------- NUL-terminated strings

  predicate NulFree(s: seq<Byte>) {
    forall i :: 0 <= i < |s| ==> s[i] != NUL
  }

  /** Every string followed by a NUL. */
  function Encode(strings: seq<seq<Byte>>): seq<Byte> {
    if strings == [] then [] else strings[0] + [NUL] + Encode(strings[1..])
  }

  lemma NulAt(s: seq<Byte>, rest: seq<Byte>)
    requires NulFree(s)
    ensures DecodeNul(s + [NUL] + rest, true) == Split(|s| + 1, Some(s))
  {
    var data := s + [NUL] + rest;
    assert data[|s|] == NUL && forall i :: 0 <= i < |s| ==> data[i] == s[i];
    var k := IndexOfNul(data, 0);
    assert k == |s| && data[0..k] == s;
  }

  /** Splitting the encoding of strings without NUL gives the strings. */
  lemma {:induction false} NulRoundTrip(strings: seq<seq<Byte>>)
    requires forall i :: 0 <= i < |strings| ==> NulFree(strings[i])
    ensures Steady(DecodeNul) && Tokens(DecodeNul, Encode(strings)) == strings
  {
    NulIsSteady();
    if strings != [] {
      var rest := Encode(strings[1..]);
      NulAt(strings[0], rest);
      NulRoundTrip(strings[1..]);
      assert (strings[0] + [NUL] + rest)[|strings[0]| + 1..] == rest;
    }
  }

  /** The first token of a stream, and the rest. */
  lemma NulFirst(data: seq<Byte>)
    requires data != []
    ensures var s := DecodeNul(data, true);
            && s.token.Some? && 0 < s.advance <= |data| && NulFree(s.token.value)
            && (data == s.token.value + [NUL] + data[s.advance..]
                || (data == s.token.value && data[s.advance..] == []))
  {
    var k := IndexOfNul(data, 0);
    if k < |data| {
      assert data == data[0..k] + [NUL] + data[k + 1..];
    }
  }

  /** The encoding of a stream's tokens: the stream, with a NUL added if it does not end with one. */
  function Ended(data: seq<Byte>): seq<Byte> {
    if data == [] || data[|data| - 1] == NUL then data else data + [NUL]
  }

  lemma EndedLater(token: seq<Byte>, rest: seq<Byte>)
    ensures Ended(token + [NUL] + rest) == token + [NUL] + Ended(rest)
  {
    var data := token + [NUL] + rest;
    if rest != [] {
      assert data[|data| - 1] == rest[|rest| - 1];
      assert data + [NUL] == token + [NUL] + (rest + [NUL]);
    } else {
      assert data[|data| - 1] == NUL;
    }
  }

  /** The other way round: the tokens of any stream are free of NUL, and their encoding is the stream, properly
      ended. */
  lemma {:induction false} NulEncodesBack(data: seq<Byte>)
    ensures Steady(DecodeNul)
    ensures forall i :: 0 <= i < |Tokens(DecodeNul, data)| ==> NulFree(Tokens(DecodeNul, data)[i])
    ensures Encode(Tokens(DecodeNul, data)) == Ended(data)
    decreases |data|
  {
    NulIsSteady();
    if data != [] {
      NulFirst(data);
      var s := DecodeNul(data, true);
      var token, rest := s.token.value, data[s.advance..];
      var others := Tokens(DecodeNul, rest);
      NulEncodesBack(rest);
      assert Tokens(DecodeNul, data) == [token] + others;
      EncodeFirst(token, others);
      if data == token + [NUL] + rest {
        EndedLater(token, rest);
      } else {
        assert token + [NUL] + [] == data + [NUL];
      }
    }
  }

  lemma EncodeFirst(token: seq<Byte>, others: seq<seq<Byte>>)
    ensures Encode([token] + others) == token + [NUL] + Encode(others)
  {
    assert ([token] + others)[1..] == others;
  }

  // ---------------------------------------------------------------- tokens of a fixed size

  /** Nothing is lost, and only the last token may be short. */
  lemma {:induction false} NumBytesTokens(num: nat, data: seq<Byte>)
    requires num >= 1
    ensures Steady(NumBytes(num))
    ensures var tokens := Tokens(NumBytes(num), data);
            && Concat(tokens) == data
            && (forall i :: 0 <= i < |tokens| - 1 ==> |tokens[i]| == num)
            && (tokens != [] ==> 1 <= |tokens[|tokens| - 1]| <= num)
    decreases |data|
  {
    NumBytesIsSteady(num);
    if data != [] {
      var s := DecodeNumBytes(num, data, true);
      var rest := data[s.advance..];
      NumBytesTokens(num, rest);
      var tokens := Tokens(NumBytes(num), data);
      var others := Tokens(NumBytes(num), rest);
      assert tokens == [s.token.value] + others && tokens[1..] == others;
      assert s.token.value + rest == data;
      if rest != [] {
        assert |s.token.value| == num;
        assert others != [];
      }
    }
  }
}
