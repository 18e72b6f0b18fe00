/** The text operations the budget engine relies on: `toLowerCase` and
    `includes` for rule matching, `replace(/,/g, ';')` and `join` for the CSV
    export, and a character count used to state how many fields and lines the
    export holds. Strings are sequences of Unicode scalar values. */
module Text {

  /** The capitals `toLowerCase` folds here: ASCII `A`..`Z` and the Latin-1
      capitals U+00C0..U+00DE except U+00D7, the multiplication sign. Each
      one's small letter lies 32 code points above it. */
  predicate Capital(c: char)
  {
    ('A' <= c <= 'Z') || ('\U{C0}' <= c <= '\U{DE}' && c != '\U{D7}')
  }

  /** Lower-cases one character the way `toLowerCase` does for ASCII and for
      the Latin-1 capitals; every other character is left as it is. */
  function LowerChar(c: char): (r: char)
    ensures r != c <==> Capital(c)
    ensures Capital(c) ==> r as int == c as int + 32
    ensures !Capital(r)
  {
    if Capital(c) then (c as int + 32) as char else c
  }

  /** `s.toLowerCase()`: every capital becomes its small letter, every other
      character stays, and nothing moves. */
  function Lower(s: string): (r: string)
    ensures |r| == |s|
    ensures forall i :: 0 <= i < |s| && Capital(s[i]) ==> r[i] as int == s[i] as int + 32
    ensures forall i :: 0 <= i < |s| && !Capital(s[i]) ==> r[i] == s[i]
    ensures forall i :: 0 <= i < |r| ==> !Capital(r[i])
  {
    seq(|s|, i requires 0 <= i < |s| => LowerChar(s[i]))
  }

  /** Lower-casing an already lower-cased character changes nothing. */
  lemma LowerCharIdempotent(c: char)
    ensures LowerChar(LowerChar(c)) == LowerChar(c)
  {
  }

  /** Lower-casing twice is lower-casing once, and a lower-cased text holds no
      ASCII capital. */
  lemma LowerIdempotent(s: string)
    ensures Lower(Lower(s)) == Lower(s)
    ensures forall i :: 0 <= i < |s| ==> !('A' <= Lower(s)[i] <= 'Z')
  {
    forall i | 0 <= i < |s|
      ensures Lower(Lower(s))[i] == Lower(s)[i]
    {
      LowerCharIdempotent(s[i]);
    }
  }

  /** `s.includes(key)`: `key` occurs in `s` as a contiguous piece. */
  predicate Contains(s: string, key: string)
    decreases |s|
  {
    key <= s || (|s| > 0 && Contains(s[1..], key))
  }

  /** `key` occurs in `s` starting at position `i`. */
  predicate OccursAt(s: string, key: string, i: int)
  {
    0 <= i <= |s| - |key| && s[i..i + |key|] == key
  }

  /** `Contains` is occurrence at some position. */
  lemma {:induction false} ContainsIff(s: string, key: string)
    ensures Contains(s, key) <==> exists i :: OccursAt(s, key, i)
    decreases |s|
  {
    if key <= s {
      assert OccursAt(s, key, 0);
    } else if |s| == 0 {
      assert |key| > 0;
    } else {
      ContainsIff(s[1..], key);
      if Contains(s[1..], key) {
        var i :| OccursAt(s[1..], key, i);
        assert s[i + 1..i + 1 + |key|] == s[1..][i..i + |key|];
        assert OccursAt(s, key, i + 1);
      } else {
        forall i | 0 <= i <= |s| - |key|
          ensures !OccursAt(s, key, i)
        {
          if i == 0 {
            assert s[0..|key|] != key;
          } else {
            assert s[i..i + |key|] == s[1..][i - 1..i - 1 + |key|];
            assert !OccursAt(s[1..], key, i - 1);
          }
        }
      }
    }
  }

  /** A text never contains a key longer than itself. */
  lemma {:induction false} ContainsNeedsRoom(s: string, key: string)
    requires Contains(s, key)
    ensures |key| <= |s|
    decreases |s|
  {
    if !(key <= s) {
      ContainsNeedsRoom(s[1..], key);
    }
  }

  /** Every character of a contained key occurs in the text. */
  lemma ContainsNeedsEach(s: string, key: string, k: nat)
    requires Contains(s, key)
    requires k < |key|
    ensures key[k] in s
  {
    ContainsIff(s, key);
    var i :| OccursAt(s, key, i);
    assert s[i..i + |key|][k] == s[i + k];
  }

  /** A lower-case ASCII letter occurs in a lower-cased text only when it, or
      its capital, occurs in the original. */
  lemma LowerAvoids(s: string, c: char)
    requires 'a' <= c <= 'z'
    requires c !in s && (c as int - 32) as char !in s
    ensures c !in Lower(s)
  {
    forall i | 0 <= i < |s|
      ensures Lower(s)[i] != c
    {
      assert s[i] != c && s[i] != (c as int - 32) as char;
    }
  }

  /** Number of occurrences of `c` in `s`. */
  function Count(s: string, c: char): (n: nat)
    ensures n <= |s|
  {
    if |s| == 0 then 0 else (if s[0] == c then 1 else 0) + Count(s[1..], c)
  }

  /** A character occurs zero times exactly when it does not occur. */
  lemma {:induction false} CountZeroIff(s: string, c: char)
    ensures Count(s, c) == 0 <==> c !in s
  {
    if |s| > 0 {
      CountZeroIff(s[1..], c);
      assert s == [s[0]] + s[1..];
    }
  }

  /** Counting distributes over concatenation. */
  lemma {:induction false} CountAppend(a: string, b: string, c: char)
    ensures Count(a + b, c) == Count(a, c) + Count(b, c)
  {
    if |a| == 0 {
      assert a + b == b;
    } else {
      assert (a + b)[1..] == a[1..] + b;
      CountAppend(a[1..], b, c);
    }
  }

  /** `s.replace(/x/g, y)` for single characters `x` and `y`. */
  function Replace(s: string, x: char, y: char): (r: string)
    ensures |r| == |s|
    ensures forall i :: 0 <= i < |s| && s[i] != x ==> r[i] == s[i]
    ensures forall i :: 0 <= i < |s| && s[i] == x ==> r[i] == y
    ensures x != y ==> x !in r
  {
    seq(|s|, i requires 0 <= i < |s| => if s[i] == x then y else s[i])
  }

  /** Replacing a character that does not occur gives back the same text. */
  lemma ReplaceAbsent(s: string, x: char, y: char)
    requires x !in s
    ensures Replace(s, x, y) == s
  {
  }

  /** `parts.join(sep)` for a one-character separator. */
  function JoinWith(parts: seq<string>, sep: char): string
  {
    if |parts| == 0 then ""
    else if |parts| == 1 then parts[0]
    else parts[0] + [sep] + JoinWith(parts[1..], sep)
  }

  /** Total number of occurrences of `c` across all `parts`. */
  function CountAll(parts: seq<string>, c: char): nat
  {
    if |parts| == 0 then 0 else Count(parts[0], c) + CountAll(parts[1..], c)
  }

  /** Joining `n` parts adds exactly `n - 1` separators and nothing else. */
  lemma {:induction false} CountJoin(parts: seq<string>, sep: char, c: char)
    requires |parts| > 0
    ensures Count(JoinWith(parts, sep), c) == (if c == sep then |parts| - 1 else 0) + CountAll(parts, c)
  {
    if |parts| == 1 {
      assert CountAll(parts[1..], c) == 0;
    } else {
      CountJoin(parts[1..], sep, c);
      CountAppend(parts[0] + [sep], JoinWith(parts[1..], sep), c);
      CountAppend(parts[0], [sep], c);
    }
  }

  /** Parts that are each free of `c` hold no `c` in total. */
  lemma {:induction false} CountAllZero(parts: seq<string>, c: char)
    requires forall k :: 0 <= k < |parts| ==> c !in parts[k]
    ensures CountAll(parts, c) == 0
  {
    if |parts| > 0 {
      CountZeroIff(parts[0], c);
      CountAllZero(parts[1..], c);
    }
  }

  /** Joining parts that hold no separator yields exactly one separator fewer
      than there are parts. */
  lemma JoinedFields(parts: seq<string>, sep: char)
    requires |parts| > 0
    requires forall k :: 0 <= k < |parts| ==> sep !in parts[k]
    ensures Count(JoinWith(parts, sep), sep) == |parts| - 1
  {
    CountJoin(parts, sep, sep);
    CountAllZero(parts, sep);
  }

  /** `s.split(c)`: the pieces between occurrences of `c`, in order; a text
      with `k` occurrences gives `k + 1` pieces. */
  function Split(s: string, c: char): (r: seq<string>)
    ensures |r| > 0
    decreases |s|
  {
    if |s| == 0 then [""]
    else
      var rest := Split(s[1..], c);
      if s[0] == c then [""] + rest else [[s[0]] + rest[0]] + rest[1..]
  }

  /** A piece free of `c`, then `c`, then more text: the piece comes out
      first and the rest is split on its own. */
  lemma {:induction false} SplitAfter(a: string, c: char, b: string)
    requires c !in a
    ensures Split(a + [c] + b, c) == [a] + Split(b, c)
    decreases |a|
  {
    if |a| == 0 {
      assert a + [c] + b == [c] + b;
      assert ([c] + b)[1..] == b;
    } else {
      assert (a + [c] + b)[1..] == a[1..] + [c] + b;
      SplitAfter(a[1..], c, b);
      assert [a[0]] + a[1..] == a;
    }
  }

  /** A text free of `c` is a single piece. */
  lemma {:induction false} SplitPlain(s: string, c: char)
    requires c !in s
    ensures Split(s, c) == [s]
    decreases |s|
  {
    if |s| > 0 {
      SplitPlain(s[1..], c);
      assert [s[0]] + s[1..] == s;
    }
  }

  /** Splitting undoes joining, for parts that hold no separator. */
  lemma {:induction false} SplitJoin(parts: seq<string>, c: char)
    requires |parts| > 0
    requires forall k :: 0 <= k < |parts| ==> c !in parts[k]
    ensures Split(JoinWith(parts, c), c) == parts
  {
    if |parts| == 1 {
      SplitPlain(parts[0], c);
    } else {
      SplitJoin(parts[1..], c);
      SplitAfter(parts[0], c, JoinWith(parts[1..], c));
      assert [parts[0]] + parts[1..] == parts;
    }
  }

  /** Joining two non-empty lists of parts puts one separator between the two
      joined texts. */
  lemma {:induction false} JoinAppend(a: seq<string>, b: seq<string>, c: char)
    requires |a| > 0 && |b| > 0
    ensures JoinWith(a + b, c) == JoinWith(a, c) + [c] + JoinWith(b, c)
  {
    if |a| == 1 {
      assert (a + b)[1..] == b;
    } else {
      assert (a + b)[1..] == a[1..] + b;
      JoinAppend(a[1..], b, c);
    }
  }

  /** Parts each free of `c`, put together, are each free of `c`. */
  lemma PartsFree(a: seq<string>, b: seq<string>, c: char)
    requires forall k :: 0 <= k < |a| ==> c !in a[k]
    requires forall k :: 0 <= k < |b| ==> c !in b[k]
    ensures forall k :: 0 <= k < |a + b| ==> c !in (a + b)[k]
  {
  }

  /** Rows joined by `c`, then a block that starts with `c`: the lines are
      the rows (a single empty line when there is none) and the block's. */
  lemma {:induction false} RowsThenBlock(rows: seq<string>, block: seq<string>, c: char)
    requires forall k :: 0 <= k < |rows| ==> c !in rows[k]
    requires |block| > 0 && forall k :: 0 <= k < |block| ==> c !in block[k]
    ensures Split(JoinWith(rows, c) + ([c] + JoinWith(block, c)), c)
         == (if |rows| == 0 then [""] else rows) + block
  {
    var rs := if |rows| == 0 then [""] else rows;
    assert forall k :: 0 <= k < |rs| ==> c !in rs[k];
    assert JoinWith(rs, c) == JoinWith(rows, c);
    JoinAppend(rs, block, c);
    assert JoinWith(rs + block, c) == JoinWith(rows, c) + ([c] + JoinWith(block, c));
    PartsFree(rs, block, c);
    SplitJoin(rs + block, c);
  }

  /** A header line, then parts joined by `c`, then a block that starts with
      `c`: the lines are the header, the parts (a single empty line when there
      is none) and the lines of the block. */
  lemma {:induction false} LayoutLines(header: string, rows: seq<string>, block: seq<string>, c: char)
    requires c !in header
    requires forall k :: 0 <= k < |rows| ==> c !in rows[k]
    requires |block| > 0 && forall k :: 0 <= k < |block| ==> c !in block[k]
    ensures Split(header + [c] + JoinWith(rows, c) + ([c] + JoinWith(block, c)), c)
         == [header] + (if |rows| == 0 then [""] else rows) + block
  {
    var rest := JoinWith(rows, c) + ([c] + JoinWith(block, c));
    RowsThenBlock(rows, block, c);
    assert header + [c] + JoinWith(rows, c) + ([c] + JoinWith(block, c)) == header + [c] + rest;
    SplitAfter(header, c, rest);
  }
}
