/**
 * `String.prototype.indexOf`, `split` and `Array.prototype.join` for a one-character
 * separator, as the ARN parsing in the authorizers and the reporter uses them.
 */
module JsString {

  /** `s.indexOf(c)`, except that "not found" is `|s|` rather than -1. */
  function IndexOf(s: string, c: char): (i: nat)
    ensures i <= |s|
    ensures i < |s| ==> s[i] == c
    ensures c !in s[..i]
  {
    if s == [] then 0
    else if s[0] == c then 0
    else
      var j := IndexOf(s[1..], c);
      assert s[..j + 1] == [s[0]] + s[1..][..j];
      j + 1
  }

  /**
   * `s.split(sep)`: the pieces between separators, scanned left to right.
   * As in JavaScript, the empty string splits into one empty piece and
   * adjacent separators produce empty pieces.
   */
  function Split(s: string, sep: char): (parts: seq<string>)
    ensures |parts| >= 1
  {
    if s == [] then [""]
    else
      var rest := Split(s[1..], sep);
      if s[0] == sep then [""] + rest
      else [[s[0]] + rest[0]] + rest[1..]
  }

  /** `s.split(sep, limit)`: the same pieces, cut off after the first `limit`. */
  function SplitLimit(s: string, sep: char, limit: nat): (parts: seq<string>)
    ensures |parts| == if |Split(s, sep)| <= limit then |Split(s, sep)| else limit
    ensures parts <= Split(s, sep)
  {
    var all := Split(s, sep);
    if |all| <= limit then all else all[..limit]
  }

  /** `parts.join(sep)`. */
  function Join(parts: seq<string>, sep: char): string
  {
    if parts == [] then ""
    else if |parts| == 1 then parts[0]
    else parts[0] + [sep] + Join(parts[1..], sep)
  }

  /** No piece of a split contains the separator. */
  predicate SeparatorFree(parts: seq<string>, sep: char)
  {
    forall k :: 0 <= k < |parts| ==> sep !in parts[k]
  }

  /** Joining the pieces back with the separator gives the original string. */
  lemma {:induction false} JoinSplit(s: string, sep: char)
    ensures Join(Split(s, sep), sep) == s
  {
    if s != [] {
      var rest := Split(s[1..], sep);
      JoinSplit(s[1..], sep);
      if s[0] == sep {
        assert Split(s, sep) == [""] + rest;
        if |rest| == 1 {
          assert Join(Split(s, sep), sep) == "" + [sep] + rest[0];
        } else {
          assert (([""] + rest)[1..]) == rest;
        }
      } else {
        if |rest| == 1 {
          assert Split(s, sep) == [[s[0]] + rest[0]];
        } else {
          assert Split(s, sep)[1..] == rest[1..];
          assert Join(rest, sep) == rest[0] + [sep] + Join(rest[1..], sep);
        }
      }
      assert s == [s[0]] + s[1..];
    }
  }

  /** The pieces never contain the separator. */
  lemma {:induction false} SplitSeparatorFree(s: string, sep: char)
    ensures SeparatorFree(Split(s, sep), sep)
  {
    if s != [] {
      SplitSeparatorFree(s[1..], sep);
      var rest := Split(s[1..], sep);
      var parts := Split(s, sep);
      forall k | 0 <= k < |parts| ensures sep !in parts[k] {
        if s[0] == sep {
          if k > 0 { assert parts[k] == rest[k - 1]; }
        } else {
          if k > 0 { assert parts[k] == rest[k]; }
          else { assert sep !in rest[0]; }
        }
      }
    }
  }

  /** There is one more piece than there are separators. */
  lemma {:induction false} SplitCount(s: string, sep: char)
    ensures |Split(s, sep)| == multiset(s)[sep] + 1
  {
    if s != [] {
      SplitCount(s[1..], sep);
      assert s == [s[0]] + s[1..];
      assert multiset(s) == multiset{s[0]} + multiset(s[1..]);
    }
  }

  /** The first piece is the text before the first separator. */
  lemma {:induction false} SplitHead(s: string, sep: char)
    ensures Split(s, sep)[0] == s[..IndexOf(s, sep)]
  {
    if s != [] && s[0] != sep {
      SplitHead(s[1..], sep);
      assert s[..IndexOf(s, sep)] == [s[0]] + s[1..][..IndexOf(s[1..], sep)];
    }
  }

  /** After the first separator, the remaining pieces are the split of the remaining text. */
  lemma {:induction false} SplitTail(s: string, sep: char)
    requires IndexOf(s, sep) < |s|
    ensures Split(s, sep)[1..] == Split(s[IndexOf(s, sep) + 1..], sep)
  {
    if s[0] != sep {
      SplitTail(s[1..], sep);
      assert s[1..][IndexOf(s[1..], sep) + 1..] == s[IndexOf(s, sep) + 1..];
    }
  }

  /** Splitting text with no separator yields the text itself. */
  lemma {:induction false} SplitFree(s: string, sep: char)
    requires sep !in s
    ensures Split(s, sep) == [s]
  {
    if s != [] {
      assert s[0] in s;
      assert s == [s[0]] + s[1..];
      assert forall c :: c in s[1..] ==> c in s;
      SplitFree(s[1..], sep);
    }
  }

  /** The first separator of `a + [sep] + b`, when `a` has none, sits right after `a`. */
  lemma {:induction false} IndexOfAfterFree(a: string, sep: char, b: string)
    requires sep !in a
    ensures IndexOf(a + [sep] + b, sep) == |a|
  {
    if a != [] {
      assert a[0] in a;
      assert forall c :: c in a[1..] ==> c in a;
      assert (a + [sep] + b)[1..] == a[1..] + [sep] + b;
      IndexOfAfterFree(a[1..], sep, b);
    }
  }

  /** Splitting one separator-free piece followed by more text. */
  lemma SplitCons(a: string, sep: char, b: string)
    requires sep !in a
    ensures Split(a + [sep] + b, sep) == [a] + Split(b, sep)
  {
    var s := a + [sep] + b;
    IndexOfAfterFree(a, sep, b);
    SplitHead(s, sep);
    SplitTail(s, sep);
    assert s[..|a|] == a;
    assert s[|a| + 1..] == b;
    var parts := Split(s, sep);
    assert parts == [parts[0]] + parts[1..];
  }

  /** Splitting separator-free pieces joined by the separator gives the pieces back. */
  lemma {:induction false} SplitJoin(parts: seq<string>, sep: char)
    requires |parts| >= 1
    requires SeparatorFree(parts, sep)
    ensures Split(Join(parts, sep), sep) == parts
  {
    if |parts| == 1 {
      SplitFree(parts[0], sep);
    } else {
      assert sep !in parts[0];
      SplitJoin(parts[1..], sep);
      SplitCons(parts[0], sep, Join(parts[1..], sep));
      assert parts == [parts[0]] + parts[1..];
    }
  }
}
