/**
 * The two JavaScript string built-ins the function-edit component relies on:
 * `String.prototype.split` with a one-character separator and
 * `String.prototype.toLowerCase` (restricted to ASCII letters).
 */
module JsStrings {

  /** `s.split(sep)`: the pieces between separators; always at least one piece. */
  function Split(s: string, sep: char): (parts: seq<string>)
    ensures |parts| >= 1
    ensures forall i :: 0 <= i < |parts| ==> sep !in parts[i]
    decreases |s|
  {
    if |s| == 0 then [""]
    else
      var rest := Split(s[1..], sep);
      if s[0] == sep then [""] + rest
      else [[s[0]] + rest[0]] + rest[1..]
  }

  /** `parts.join(sep)`, the inverse of Split. */
  function Join(parts: seq<string>, sep: char): (s: string)
    requires |parts| >= 1
    decreases |parts|
  {
    if |parts| == 1 then parts[0] else parts[0] + [sep] + Join(parts[1..], sep)
  }

  /** Joining the pieces of a split gives back the original string. */
  lemma {:induction false} JoinSplit(s: string, sep: char)
    ensures Join(Split(s, sep), sep) == s
    decreases |s|
  {
    if |s| > 0 {
      var rest := Split(s[1..], sep);
      JoinSplit(s[1..], sep);
      if s[0] == sep {
        assert Split(s, sep) == [""] + rest;
        assert ([""] + rest)[1..] == rest;
        assert Join([""] + rest, sep) == "" + [sep] + Join(rest, sep);
        assert s == [s[0]] + s[1..];
      } else {
        var parts := [[s[0]] + rest[0]] + rest[1..];
        assert Split(s, sep) == parts;
        if |rest| == 1 {
          assert Join(parts, sep) == [s[0]] + rest[0];
        } else {
          assert parts[1..] == rest[1..];
          assert Join(parts, sep) == [s[0]] + rest[0] + [sep] + Join(rest[1..], sep);
          assert Join(rest, sep) == rest[0] + [sep] + Join(rest[1..], sep);
        }
        assert s == [s[0]] + s[1..];
      }
    }
  }

  /** A string free of the separator splits into itself alone. */
  lemma {:induction false} SplitWithoutSeparator(s: string, sep: char)
    requires sep !in s
    ensures Split(s, sep) == [s]
    decreases |s|
  {
    if |s| > 0 {
      assert sep !in s[1..] by {
        forall i | 0 <= i < |s[1..]| ensures s[1..][i] != sep { assert s[1..][i] == s[i + 1]; }
      }
      SplitWithoutSeparator(s[1..], sep);
      assert s == [s[0]] + s[1..];
    }
  }

  /** Splitting `a + sep + b`, where `a` holds no separator, yields `a` followed by the pieces of `b`. */
  lemma {:induction false} SplitAfterPiece(a: string, sep: char, b: string)
    requires sep !in a
    ensures Split(a + [sep] + b, sep) == [a] + Split(b, sep)
    decreases |a|
  {
    var s := a + [sep] + b;
    if |a| == 0 {
      assert s == [sep] + b;
      assert s[1..] == b;
    } else {
      assert s[1..] == a[1..] + [sep] + b;
      assert sep !in a[1..] by {
        forall i | 0 <= i < |a[1..]| ensures a[1..][i] != sep { assert a[1..][i] == a[i + 1]; }
      }
      SplitAfterPiece(a[1..], sep, b);
      var rest := Split(s[1..], sep);
      assert rest == [a[1..]] + Split(b, sep);
      assert s[0] == a[0] && a[0] != sep;
      assert [s[0]] + rest[0] == a;
      assert rest[1..] == Split(b, sep);
    }
  }

  /** Splitting a join of separator-free pieces gives back the pieces. */
  lemma {:induction false} SplitJoin(parts: seq<string>, sep: char)
    requires |parts| >= 1
    requires forall i :: 0 <= i < |parts| ==> sep !in parts[i]
    ensures Split(Join(parts, sep), sep) == parts
    decreases |parts|
  {
    if |parts| == 1 {
      SplitWithoutSeparator(parts[0], sep);
    } else {
      SplitJoin(parts[1..], sep);
      SplitAfterPiece(parts[0], sep, Join(parts[1..], sep));
      assert parts == [parts[0]] + parts[1..];
    }
  }

  /** `t` is what follows the last `sep` in `s` (all of `s` when it has none). */
  ghost predicate IsTrailingPiece(s: string, sep: char, t: string)
  {
    |t| <= |s| && t == s[|s| - |t|..] && sep !in t && (|t| == |s| || s[|s| - |t| - 1] == sep)
  }

  /** What is known of the last piece of `Split(s, sep)`. */
  ghost predicate LastPieceFacts(s: string, sep: char)
  {
    IsTrailingPiece(s, sep, Last(Split(s, sep)))
    && (|Split(s, sep)| > 1 ==> |Last(Split(s, sep))| < |s|)
    && (|Split(s, sep)| == 1 ==> Split(s, sep)[0] == s)
  }

  /** The last piece of a split is the text after the last separator, and it is a proper
      suffix as soon as there is more than one piece. */
  lemma LastPieceIsTrailing(s: string, sep: char)
    ensures IsTrailingPiece(s, sep, Last(Split(s, sep)))
    ensures |Split(s, sep)| > 1 ==> |Last(Split(s, sep))| < |s|
    ensures |Split(s, sep)| == 1 ==> Split(s, sep)[0] == s
  {
    LastPieceFactsHold(s, sep);
  }

  lemma {:induction false} LastPieceFactsHold(s: string, sep: char)
    ensures LastPieceFacts(s, sep)
    decreases |s|
  {
    if |s| > 0 {
      LastPieceFactsHold(s[1..], sep);
      if s[0] == sep || |Split(s[1..], sep)| > 1 {
        LastPieceAfterSeparator(s, sep);
      } else {
        LastPieceOfSingle(s, sep);
      }
    }
  }

  /** Inductive step when the split of `s` has more than one piece. */
  lemma LastPieceAfterSeparator(s: string, sep: char)
    requires |s| > 0 && LastPieceFacts(s[1..], sep)
    requires s[0] == sep || |Split(s[1..], sep)| > 1
    ensures LastPieceFacts(s, sep)
  {
    var rest, parts := Split(s[1..], sep), Split(s, sep);
    if s[0] == sep {
      assert parts == [""] + rest;
    } else {
      assert parts == [[s[0]] + rest[0]] + rest[1..];
    }
    assert Last(parts) == Last(rest) && |parts| > 1;
    assert s == [s[0]] + s[1..];
    TrailingPieceExtends(s[0], s[1..], sep, Last(rest));
  }

  /** Inductive step when `s` starts with a non-separator and its tail splits into one piece. */
  lemma LastPieceOfSingle(s: string, sep: char)
    requires |s| > 0 && LastPieceFacts(s[1..], sep)
    requires s[0] != sep && |Split(s[1..], sep)| == 1
    ensures LastPieceFacts(s, sep)
  {
    assert s == [s[0]] + s[1..];
    assert Split(s, sep) == [s];
  }

  /** A trailing piece of `s` stays trailing when a character is put in front, unless it was all
      of `s` and the new character is not a separator. */
  lemma TrailingPieceExtends(c: char, s: string, sep: char, t: string)
    requires IsTrailingPiece(s, sep, t)
    requires |t| < |s| || c == sep
    ensures IsTrailingPiece([c] + s, sep, t)
  {
    var u := [c] + s;
    assert u[|u| - |t|..] == s[|s| - |t|..];
    if |t| < |s| {
      assert u[|u| - |t| - 1] == s[|s| - |t| - 1];
    }
  }

  /** The last element of a non-empty sequence. */
  function Last<T>(xs: seq<T>): (x: T)
    requires |xs| >= 1
    ensures x in xs
  {
    xs[|xs| - 1]
  }

  /** ASCII part of `toLowerCase`. */
  function LowerChar(c: char): (d: char)
    ensures !('A' <= d <= 'Z')
    ensures ('a' <= d <= 'z') <==> ('A' <= c <= 'Z' || 'a' <= c <= 'z')
    ensures !('A' <= c <= 'Z') ==> d == c
  {
    if 'A' <= c <= 'Z' then (c as int + 32) as char else c
  }

  /** `s.toLowerCase()` on ASCII letters: position by position, every upper-case letter is lowered. */
  function ToLower(s: string): (r: string)
    ensures |r| == |s|
    ensures forall i :: 0 <= i < |s| ==> r[i] == LowerChar(s[i])
    decreases |s|
  {
    if |s| == 0 then "" else [LowerChar(s[0])] + ToLower(s[1..])
  }

  /** Two strings that differ only in letter case lower-case to the same string. */
  ghost predicate EqualIgnoringCase(s: string, t: string)
  {
    |s| == |t| && forall i :: 0 <= i < |s| ==> LowerChar(s[i]) == LowerChar(t[i])
  }

  lemma ToLowerEqualIff(s: string, t: string)
    ensures ToLower(s) == ToLower(t) <==> EqualIgnoringCase(s, t)
  {
    if EqualIgnoringCase(s, t) {
      assert forall i :: 0 <= i < |s| ==> ToLower(s)[i] == ToLower(t)[i];
    }
    if ToLower(s) == ToLower(t) {
      assert forall i :: 0 <= i < |s| ==> LowerChar(s[i]) == ToLower(t)[i];
    }
  }
}
