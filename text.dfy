/**
 * The string helpers the P&L code relies on: `str.lower` for trade sides,
 * `str.split` and `quote_of` for the quote currency of a market symbol such
 * as "ETH/BTC".
 */
module Text {

  predicate IsUpper(c: char) {
    'A' <= c <= 'Z'
  }

  function LowerChar(c: char): char {
    if IsUpper(c) then (c as int + 32) as char else c
  }

  /**
   * `str.lower`, on ASCII letters. No other character lowers to a letter of
   * "buy" or "sell", so comparisons of a lowered side with those words are
   * decided exactly as Python decides them.
   */
  function Lower(s: string): (r: string)
    ensures |r| == |s|
    ensures forall i :: 0 <= i < |r| ==> !IsUpper(r[i])
    ensures forall i :: 0 <= i < |s| && !IsUpper(s[i]) ==> r[i] == s[i]
    ensures forall i :: 0 <= i < |s| && IsUpper(s[i]) ==> r[i] as int == s[i] as int + 32
  {
    if s == [] then [] else [LowerChar(s[0])] + Lower(s[1..])
  }

  /** Lowering twice is lowering once. */
  lemma LowerIsIdempotent(s: string)
    ensures Lower(Lower(s)) == Lower(s)
  {
    var once := Lower(s);
    var twice := Lower(once);
    assert forall i :: 0 <= i < |twice| ==> twice[i] == once[i];
  }

  /** `s.split(sep)`: the pieces between separators, at least one (possibly empty) piece. */
  function Split(s: string, sep: char): (parts: seq<string>)
    ensures |parts| >= 1
  {
    if s == [] then [[]]
    else
      var rest := Split(s[1..], sep);
      if s[0] == sep then [[]] + rest
      else [[s[0]] + rest[0]] + rest[1..]
  }

  /** `sep.join(parts)`. */
  function Join(parts: seq<string>, sep: char): string
    requires |parts| >= 1
  {
    if |parts| == 1 then parts[0] else parts[0] + [sep] + Join(parts[1..], sep)
  }

  /** Splitting loses nothing: joining the pieces gives the string back, and no piece holds a separator. */
  lemma {:induction false} SplitThenJoin(s: string, sep: char)
    ensures Join(Split(s, sep), sep) == s
    ensures forall k :: 0 <= k < |Split(s, sep)| ==> sep !in Split(s, sep)[k]
  {
    if s != [] {
      var rest := Split(s[1..], sep);
      SplitThenJoin(s[1..], sep);
      if s[0] == sep {
        assert ([[]] + rest)[1..] == rest;
      } else {
        var parts := [[s[0]] + rest[0]] + rest[1..];
        if |rest| > 1 {
          assert parts[1..] == rest[1..];
          assert Join(rest, sep) == rest[0] + [sep] + Join(rest[1..], sep);
        }
        forall k | 0 <= k < |parts|
          ensures sep !in parts[k]
        {
          if k > 0 {
            assert parts[k] == rest[k];
          }
        }
      }
    }
  }

  /** A split yields more than one piece exactly when the separator occurs. */
  lemma {:induction false} SplitHasSeveralPieces(s: string, sep: char)
    ensures |Split(s, sep)| > 1 <==> sep in s
  {
    if s != [] {
      SplitHasSeveralPieces(s[1..], sep);
      assert sep in s <==> s[0] == sep || sep in s[1..];
    }
  }

  /**
   * The last piece of a split is the longest suffix free of separators: it is
   * a suffix, holds no separator, and is the whole string or is preceded by one.
   */
  lemma {:induction false} LastPieceIsSuffix(s: string, sep: char)
    ensures var last := Split(s, sep)[|Split(s, sep)| - 1];
      && sep !in last
      && |last| <= |s| && last == s[|s| - |last|..]
      && (|last| < |s| ==> s[|s| - |last| - 1] == sep)
  {
    if s != [] {
      var tail := s[1..];
      var rest := Split(tail, sep);
      var lastRest := rest[|rest| - 1];
      LastPieceIsSuffix(tail, sep);
      assert s[|s| - |lastRest|..] == tail[|tail| - |lastRest|..];
      if s[0] == sep || |rest| > 1 {
        assert Split(s, sep)[|Split(s, sep)| - 1] == lastRest;
        if |lastRest| == |tail| {
          if s[0] != sep {
            SplitHasSeveralPieces(tail, sep);
            assert false;
          }
        } else {
          assert s[|s| - |lastRest| - 1] == tail[|tail| - |lastRest| - 1];
        }
      } else {
        SplitHasSeveralPieces(tail, sep);
        LastPieceOfPlainString(s, sep);
      }
    }
  }

  /** A string without separators splits into itself. */
  lemma {:induction false} LastPieceOfPlainString(s: string, sep: char)
    requires sep !in s
    ensures Split(s, sep) == [s]
  {
    if s != [] {
      LastPieceOfPlainString(s[1..], sep);
      assert [s[0]] + s[1..] == s;
    }
  }

  /**
   * `quote_of`: the quote currency of a market symbol, the text after its last
   * "/", or the whole symbol when it holds no "/".
   */
  function QuoteOf(symbol: string): (quote: string)
    ensures '/' !in quote
    ensures |quote| <= |symbol| && quote == symbol[|symbol| - |quote|..]
    ensures |quote| < |symbol| ==> symbol[|symbol| - |quote| - 1] == '/'
    ensures '/' !in symbol ==> quote == symbol
  {
    if '/' in symbol then
      LastPieceIsSuffix(symbol, '/');
      var parts := Split(symbol, '/');
      parts[|parts| - 1]
    else symbol
  }

  /** The guard in `quote_of` changes nothing: the quote is always the last piece of the split. */
  lemma QuoteOfIsLastPiece(symbol: string)
    ensures QuoteOf(symbol) == Split(symbol, '/')[|Split(symbol, '/')| - 1]
  {
    var parts := Split(symbol, '/');
    if '/' !in symbol {
      LastPieceOfPlainString(symbol, '/');
      assert parts == [symbol];
    }
  }

  lemma QuoteOfExample()
    ensures QuoteOf("ETH/BTC") == "BTC"
    ensures QuoteOf("BTC") == "BTC"
  {
    var s := "ETH/BTC";
    assert s[3] == '/';
    assert s[4..] == "BTC";
  }
}
