/** Character-sequence helpers with the meaning of the java.lang.String
    operations the statement builders use: String.join, indexOf, startsWith,
    contains, substring, trim, isBlank and the ASCII part of equalsIgnoreCase. */
module Text {
  import opened Wrappers

  /** Number of occurrences of character c in s. */
  function Occurrences(s: string, c: char): nat
    decreases |s|
  {
    if |s| == 0 then 0 else (if s[0] == c then 1 else 0) + Occurrences(s[1..], c)
  }

  /** The count is the multiplicity of c among the characters of s. */
  lemma {:induction false} OccurrencesIsMultiplicity(s: string, c: char)
    ensures Occurrences(s, c) == multiset(s)[c]
    decreases |s|
  {
    if |s| > 0 {
      OccurrencesIsMultiplicity(s[1..], c);
      assert s == [s[0]] + s[1..];
    }
  }

  /** Counting distributes over concatenation. */
  lemma {:induction false} OccurrencesConcat(a: string, b: string, c: char)
    ensures Occurrences(a + b, c) == Occurrences(a, c) + Occurrences(b, c)
    decreases |a|
  {
    if |a| == 0 {
      assert a + b == b;
    } else {
      OccurrencesConcat(a[1..], b, c);
      assert (a + b)[1..] == a[1..] + b;
    }
  }

  /** A string that does not hold c has no occurrence of it. */
  lemma {:induction false} NoOccurrences(s: string, c: char)
    requires c !in s
    ensures Occurrences(s, c) == 0
    decreases |s|
  {
    if |s| > 0 {
      assert s == [s[0]] + s[1..];
      NoOccurrences(s[1..], c);
    }
  }

  /** StringBuilder.append of a String reference: a null one appends the
      four characters "null". */
  function AppendText(s: Option<string>): (r: string)
    ensures s.Some? ==> r == s.value
    ensures s.None? ==> r == "null"
  {
    if s.Some? then s.value else "null"
  }

  /** Concatenation regroups freely: appending b then c appends b + c. A
      proof step only, for the lemmas that regroup rendered text. */
  lemma ConcatAssociative<T>(a: seq<T>, b: seq<T>, c: seq<T>)
    ensures a + b + c == a + (b + c)
  {
  }

  /** String.join(sep, items). */
  function Join(sep: string, items: seq<string>): (r: string)
    decreases |items|
  {
    if |items| == 0 then ""
    else if |items| == 1 then items[0]
    else items[0] + sep + Join(sep, items[1..])
  }

  /** Collections.nCopies(n, s). */
  function Copies(n: nat, s: string): (r: seq<string>)
    ensures |r| == n && forall i :: 0 <= i < n ==> r[i] == s
  {
    seq(n, _ => s)
  }

  /** The placeholder list String.join(", ", nCopies(n, "?")). */
  function Placeholders(n: nat): string
  {
    Join(", ", Copies(n, "?"))
  }

  /** Joining one more item appends the separator and the item. */
  lemma {:induction false} JoinAppend(sep: string, items: seq<string>, x: string)
    ensures Join(sep, items + [x]) == if |items| == 0 then x else Join(sep, items) + sep + x
    decreases |items|
  {
    if |items| > 1 {
      assert (items + [x])[1..] == items[1..] + [x];
      JoinAppend(sep, items[1..], x);
    } else if |items| == 1 {
      assert (items + [x])[1..] == [x];
    }
  }

  /** The join of items that all avoid c, with a separator that avoids c,
      avoids c. */
  lemma {:induction false} JoinExcludes(sep: string, items: seq<string>, c: char)
    requires c !in sep
    requires forall i :: 0 <= i < |items| ==> c !in items[i]
    ensures c !in Join(sep, items)
    decreases |items|
  {
    if |items| > 1 {
      JoinExcludes(sep, items[1..], c);
    }
  }

  /** nCopies(n, "?") joined by ", " holds exactly n placeholders. */
  lemma {:induction false} PlaceholdersCount(n: nat)
    ensures Occurrences(Placeholders(n), '?') == n
    decreases n
  {
    if n > 1 {
      PlaceholdersCount(n - 1);
      assert Copies(n, "?")[1..] == Copies(n - 1, "?");
      assert Placeholders(n) == "?" + ", " + Placeholders(n - 1);
      assert "?"[1..] == [];
      NoOccurrences(", ", '?');
      OccurrencesConcat("?", ", ", '?');
      OccurrencesConcat("?" + ", ", Placeholders(n - 1), '?');
    }
  }

  /** String.startsWith. */
  predicate StartsWith(s: string, prefix: string)
  {
    |prefix| <= |s| && s[..|prefix|] == prefix
  }

  lemma StartsWithConcat(a: string, b: string)
    ensures StartsWith(a + b, a)
  {
    assert (a + b)[..|a|] == a;
  }

  /** A common head can be cancelled from both sides of startsWith. */
  lemma StartsWithCancel(a: string, b: string, c: string)
    requires StartsWith(a + b, a + c)
    ensures StartsWith(b, c)
  {
    assert b[..|c|] == (a + b)[|a|..|a| + |c|];
    assert (a + c)[|a|..] == c;
  }

  /** String.endsWith. */
  predicate EndsWith(s: string, suffix: string)
  {
    |suffix| <= |s| && s[|s| - |suffix|..] == suffix
  }

  lemma EndsWithConcat(a: string, b: string)
    ensures EndsWith(a + b, b)
  {
    assert (a + b)[|a|..] == b;
  }

  /** String.indexOf(c, from): the first position at or after from holding
      c, or -1. */
  function IndexOf(s: string, c: char, from: nat): (r: int)
    ensures r == -1 || from <= r < |s|
    ensures r == -1 ==> forall k :: from <= k < |s| ==> s[k] != c
    ensures r != -1 ==> s[r] == c && forall k :: from <= k < r ==> s[k] != c
    decreases |s| - from
  {
    if from >= |s| then -1
    else if s[from] == c then from
    else IndexOf(s, c, from + 1)
  }

  /** String.contains for a single character. */
  predicate Contains(s: string, c: char)
  {
    exists k :: 0 <= k < |s| && s[k] == c
  }

  /** Character.isWhitespace, restricted to the ASCII and ASCII-control
      range (the Unicode space separators are not modelled). */
  predicate IsWhitespace(c: char)
  {
    c == ' ' || c == '\t' || c == '\n' || c == '\U{000B}' || c == '\U{000C}' || c == '\r'
    || c == '\U{001C}' || c == '\U{001D}' || c == '\U{001E}' || c == '\U{001F}'
  }

  /** String.isBlank: empty or only whitespace. */
  predicate IsBlank(s: string)
  {
    forall k :: 0 <= k < |s| ==> IsWhitespace(s[k])
  }

  /** String.trim removes every leading and trailing character whose code
      is at most U+0020. */
  predicate IsTrimmable(c: char)
  {
    c <= ' '
  }

  function TrimStart(s: string): (r: string)
    ensures |r| <= |s| && r == s[|s| - |r|..]
    ensures |r| > 0 ==> !IsTrimmable(r[0])
    ensures forall k :: 0 <= k < |s| - |r| ==> IsTrimmable(s[k])
  {
    if |s| > 0 && IsTrimmable(s[0]) then TrimStart(s[1..]) else s
  }

  function TrimEnd(s: string): (r: string)
    ensures |r| <= |s| && r == s[..|r|]
    ensures |r| > 0 ==> !IsTrimmable(r[|r| - 1])
    ensures forall k :: |r| <= k < |s| ==> IsTrimmable(s[k])
  {
    if |s| > 0 && IsTrimmable(s[|s| - 1]) then TrimEnd(s[..|s| - 1]) else s
  }

  function Trim(s: string): (r: string)
  {
    TrimEnd(TrimStart(s))
  }

  /** Trimming leaves nothing exactly when every character is trimmable. */
  lemma TrimEmpty(s: string)
    ensures Trim(s) == [] <==> forall k :: 0 <= k < |s| ==> IsTrimmable(s[k])
  {
    var t := TrimStart(s);
    if Trim(s) != [] {
      assert !IsTrimmable(t[0]);
      assert t[0] == s[|s| - |t|];
    }
  }

  /** Character.toUpperCase and toLowerCase on ASCII letters; every other
      character maps to itself. */
  function ToUpper(c: char): char
  {
    if 'a' <= c <= 'z' then (c as int - 32) as char else c
  }

  function ToLower(c: char): char
  {
    if 'A' <= c <= 'Z' then (c as int + 32) as char else c
  }

  /** The per-character test of String.equalsIgnoreCase (regionMatches with
      ignoreCase): equal, equal in upper case, or equal in lower case of the
      upper case. */
  predicate CharEqualsIgnoreCase(a: char, b: char)
  {
    a == b || ToUpper(a) == ToUpper(b) || ToLower(ToUpper(a)) == ToLower(ToUpper(b))
  }

  predicate EqualsIgnoreCase(a: string, b: string)
  {
    |a| == |b| && forall k :: 0 <= k < |a| ==> CharEqualsIgnoreCase(a[k], b[k])
  }

  function LowerCase(s: string): (r: string)
    ensures |r| == |s| && forall k :: 0 <= k < |s| ==> r[k] == ToLower(s[k])
  {
    seq(|s|, k requires 0 <= k < |s| => ToLower(s[k]))
  }
}
