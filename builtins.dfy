/**
 * The small part of Python's built-in behaviour that the device-pool handler
 * relies on: the dynamically typed values a CloudFormation event carries,
 * truthiness (`if not x`), `dict.get(key, None)`, and `str.split` / `str.join`
 * on a one-character separator.
 */
module Builtins {

  /** A JSON value as it arrives in a custom-resource event. */
  datatype Value =
    | Null
    | Bool(b: bool)
    | Int(i: int)
    | Str(s: string)
    | List(items: seq<Value>)
    | Dict(entries: map<string, Value>)

  /** Python truthiness: `None`, `False`, `0`, `''` and empty containers are falsy. */
  predicate Truthy(v: Value)
    ensures !Truthy(v) <==> v in {Null, Bool(false), Int(0), Str(""), List([]), Dict(map[])}
  {
    match v
    case Null => false
    case Bool(b) => b
    case Int(i) => i != 0
    case Str(s) => s != ""
    case List(items) => items != []
    case Dict(entries) => entries != map[]
  }

  /**
   * `d.get(key, None)`: a read is `None` exactly when the key is absent or
   * holds `None`, and otherwise it is the stored value.
   */
  function Get(d: map<string, Value>, key: string): (v: Value)
    ensures v == Null <==> key !in d || d[key] == Null
    ensures v != Null ==> key in d && d[key] == v
  {
    if key in d then d[key] else Null
  }

  /** `s.count(c)`: the number of occurrences of `c` in `s`. */
  function Count(s: string, c: char): nat
    decreases |s|
  {
    if s == [] then 0 else Count(s[..|s| - 1], c) + (if s[|s| - 1] == c then 1 else 0)
  }

  /**
   * `s.split(sep)`: the pieces of `s` between occurrences of `sep`, left to
   * right. There is always at least one piece: `''.split(':') == ['']`.
   */
  function Split(s: string, sep: char): (parts: seq<string>)
    ensures |parts| >= 1
    ensures |parts| == Count(s, sep) + 1
    decreases |s|
  {
    if s == [] then [""]
    else
      var init := Split(s[..|s| - 1], sep);
      var c := s[|s| - 1];
      if c == sep then init + [""]
      else init[..|init| - 1] + [init[|init| - 1] + [c]]
  }

  /** `sep.join(parts)` for a non-empty list of pieces. */
  function Join(parts: seq<string>, sep: char): string
    requires |parts| >= 1
    decreases |parts|
  {
    if |parts| == 1 then parts[0]
    else Join(parts[..|parts| - 1], sep) + [sep] + parts[|parts| - 1]
  }

  /** Extending the last piece by a character extends the join by it. */
  lemma {:induction false} JoinExtendLast(parts: seq<string>, c: char, sep: char)
    requires |parts| >= 1
    ensures Join(parts[..|parts| - 1] + [parts[|parts| - 1] + [c]], sep) == Join(parts, sep) + [c]
  {
    var extended := parts[..|parts| - 1] + [parts[|parts| - 1] + [c]];
    assert extended[..|extended| - 1] == parts[..|parts| - 1];
  }

  /** Joining the pieces of a split gives back the original string. */
  lemma {:induction false} JoinSplit(s: string, sep: char)
    ensures Join(Split(s, sep), sep) == s
    decreases |s|
  {
    if s != [] {
      var s', c := s[..|s| - 1], s[|s| - 1];
      assert s == s' + [c];
      var init := Split(s', sep);
      JoinSplit(s', sep);
      SplitSnoc(s', c, sep);
      if c == sep {
        assert (init + [""])[..|init|] == init;
      } else {
        JoinExtendLast(init, c, sep);
      }
    }
  }

  /** No piece of a split contains the separator. */
  lemma {:induction false} SplitPiecesSepFree(s: string, sep: char)
    ensures var parts := Split(s, sep); forall k :: 0 <= k < |parts| ==> sep !in parts[k]
    decreases |s|
  {
    if s != [] {
      var s', c := s[..|s| - 1], s[|s| - 1];
      assert s == s' + [c];
      SplitPiecesSepFree(s', sep);
      SplitSnoc(s', c, sep);
      var init := Split(s', sep);
      var parts := Split(s, sep);
      forall k | 0 <= k < |parts| ensures sep !in parts[k] {
        if k < |init| - 1 || (c == sep && k < |init|) {
          assert parts[k] == init[k];
        } else if c != sep {
          assert parts[k] == init[k] + [c];
        }
      }
    }
  }

  /** One step of `Split`: appending a character either starts a new piece or extends the last one. */
  lemma {:induction false} SplitSnoc(s: string, c: char, sep: char)
    ensures var parts := Split(s, sep);
      Split(s + [c], sep) ==
        if c == sep then parts + [""] else parts[..|parts| - 1] + [parts[|parts| - 1] + [c]]
  {
    assert (s + [c])[..|s + [c]| - 1] == s;
  }

  /** The step of `SplitAppendPiece`: one more non-separator character extends the last piece again. */
  lemma {:induction false} SplitAppendStep(s: string, t: string, c: char, sep: char)
    requires c != sep
    requires var parts := Split(s, sep);
      Split(s + t, sep) == parts[..|parts| - 1] + [parts[|parts| - 1] + t]
    ensures var parts := Split(s, sep);
      Split(s + (t + [c]), sep) == parts[..|parts| - 1] + [parts[|parts| - 1] + (t + [c])]
  {
    var parts := Split(s, sep);
    var front, last := parts[..|parts| - 1], parts[|parts| - 1];
    var init := Split(s + t, sep);
    SplitSnoc(s + t, c, sep);
    assert s + (t + [c]) == (s + t) + [c];
    assert init[..|init| - 1] == front;
    assert init[|init| - 1] + [c] == last + (t + [c]);
  }

  /** Appending text free of the separator only extends the last piece. */
  lemma {:induction false} SplitAppendPiece(s: string, t: string, sep: char)
    requires sep !in t
    ensures var parts := Split(s, sep);
      Split(s + t, sep) == parts[..|parts| - 1] + [parts[|parts| - 1] + t]
    decreases |t|
  {
    var parts := Split(s, sep);
    if t == [] {
      assert s + t == s;
      assert parts[|parts| - 1] + t == parts[|parts| - 1];
      assert parts[..|parts| - 1] + [parts[|parts| - 1]] == parts;
    } else {
      var t', c := t[..|t| - 1], t[|t| - 1];
      assert t == t' + [c];
      assert c in t;
      SplitAppendPiece(s, t', sep);
      SplitAppendStep(s, t', c, sep);
    }
  }

  /** The step of `SplitJoin`: one more separator-free piece is split back off. */
  lemma {:induction false} SplitJoinStep(init: seq<string>, last: string, sep: char)
    requires |init| >= 1 && sep !in last
    requires Split(Join(init, sep), sep) == init
    ensures Split(Join(init + [last], sep), sep) == init + [last]
  {
    var parts := init + [last];
    var prefix := Join(init, sep) + [sep];
    assert parts[..|parts| - 1] == init && parts[|parts| - 1] == last;
    assert Join(parts, sep) == prefix + last;
    SplitSnoc(Join(init, sep), sep, sep);
    SplitAppendPiece(prefix, last, sep);
    assert (init + [""])[..|init|] == init;
    assert "" + last == last;
  }

  /** Splitting the join of separator-free pieces gives back the pieces. */
  lemma {:induction false} SplitJoin(parts: seq<string>, sep: char)
    requires |parts| >= 1
    requires forall k :: 0 <= k < |parts| ==> sep !in parts[k]
    ensures Split(Join(parts, sep), sep) == parts
    decreases |parts|
  {
    if |parts| == 1 {
      SplitAppendPiece("", parts[0], sep);
      assert "" + parts[0] == parts[0];
    } else {
      var init, last := parts[..|parts| - 1], parts[|parts| - 1];
      assert parts == init + [last];
      assert forall k :: 0 <= k < |init| ==> init[k] == parts[k];
      SplitJoin(init, sep);
      SplitJoinStep(init, last, sep);
    }
  }

  /** The last piece of `Split(s, sep)`. */
  function LastPiece(s: string, sep: char): string {
    var parts := Split(s, sep);
    parts[|parts| - 1]
  }

  /** Appending a character empties the last piece (the separator) or extends it (anything else). */
  lemma {:induction false} LastPieceSnoc(s: string, c: char, sep: char)
    ensures LastPiece(s + [c], sep) == if c == sep then "" else LastPiece(s, sep) + [c]
  {
    SplitSnoc(s, c, sep);
  }

  /** The last piece of a split is a suffix of the string, free of the separator. */
  lemma {:induction false} LastPieceSuffix(s: string, sep: char)
    ensures var last := LastPiece(s, sep);
      sep !in last && |last| <= |s| && last == s[|s| - |last|..]
    decreases |s|
  {
    if s != [] {
      var s', c := s[..|s| - 1], s[|s| - 1];
      assert s == s' + [c];
      LastPieceSuffix(s', sep);
      LastPieceSnoc(s', c, sep);
      if c != sep {
        var last' := LastPiece(s', sep);
        assert s[|s| - |last'| - 1..] == s'[|s'| - |last'|..] + [c];
      }
    }
  }

  /** When the string has a separator, the last piece starts right after one. */
  lemma {:induction false} LastPieceAfterSep(s: string, sep: char)
    requires sep in s
    ensures var last := LastPiece(s, sep); |last| < |s| && s[|s| - |last| - 1] == sep
    decreases |s|
  {
    var s', c := s[..|s| - 1], s[|s| - 1];
    assert s == s' + [c];
    LastPieceSnoc(s', c, sep);
    if c != sep {
      assert sep in s';
      LastPieceAfterSep(s', sep);
      var last' := LastPiece(s', sep);
      assert s[|s'| - |last'| - 1] == s'[|s'| - |last'| - 1];
    }
  }

  /** Without a separator, the split has the whole string as its last piece. */
  lemma {:induction false} LastPieceWhole(s: string, sep: char)
    requires sep !in s
    ensures LastPiece(s, sep) == s
    decreases |s|
  {
    if s != [] {
      var s', c := s[..|s| - 1], s[|s| - 1];
      assert s == s' + [c];
      assert sep !in s' && c != sep;
      LastPieceWhole(s', sep);
      LastPieceSnoc(s', c, sep);
    }
  }

  /**
   * The last piece of a split is the text after the last separator: a suffix
   * of `s` free of `sep`, preceded in `s` by `sep` when `s` contains one, and
   * the whole of `s` otherwise.
   */
  lemma {:induction false} SplitLast(s: string, sep: char)
    ensures var last := LastPiece(s, sep);
      && sep !in last
      && |last| <= |s| && last == s[|s| - |last|..]
      && (sep in s ==> |last| < |s| && s[|s| - |last| - 1] == sep)
      && (sep !in s ==> last == s)
  {
    LastPieceSuffix(s, sep);
    if sep in s {
      LastPieceAfterSep(s, sep);
    } else {
      LastPieceWhole(s, sep);
    }
  }
}
