/** Sequence and string helpers shared by the client and the server models:
    searching, filtering, joining and splitting the comma-separated,
    newline-terminated text of the protocol. */
module Text {

  datatype Option<+T> = None | Some(value: T)

  /** Position of the first occurrence of x in s (C's strstr on a one-character
      needle, Python's list.index). */
  function IndexOf<T(==)>(s: seq<T>, x: T): (i: nat)
    requires x in s
    ensures i < |s| && s[i] == x && x !in s[..i]
  {
    if s[0] == x then 0
    else
      var j := IndexOf(s[1..], x);
      assert s[..j + 1] == [s[0]] + s[1..][..j];
      j + 1
  }

  /** The first occurrence of x is the one that follows a prefix free of x. */
  lemma IndexOfAfter<T>(a: seq<T>, b: seq<T>, x: T)
    requires x !in a
    ensures x in a + [x] + b && IndexOf(a + [x] + b, x) == |a|
  {
    var s := a + [x] + b;
    assert s[|a|] == x;
    var i := IndexOf(s, x);
    assert s[..|a|] == a;
  }

  /** s with every occurrence of c removed (Python's str.replace(c, '')). */
  function Without(s: string, c: char): (r: string)
    ensures c !in r && |r| <= |s|
    ensures c !in s ==> r == s
  {
    if s == [] then []
    else
      assert s == [s[0]] + s[1..];
      (if s[0] == c then [] else [s[0]]) + Without(s[1..], c)
  }

  /** Removing c shortens s by exactly the number of c's it holds. */
  lemma {:induction false} WithoutCount(s: string, c: char)
    ensures |Without(s, c)| == |s| - multiset(s)[c]
    decreases |s|
  {
    if s != [] {
      assert s == [s[0]] + s[1..];
      WithoutCount(s[1..], c);
    }
  }

  lemma {:induction false} WithoutAppend(a: string, b: string, c: char)
    ensures Without(a + b, c) == Without(a, c) + Without(b, c)
    decreases |a|
  {
    if a == [] {
      assert a + b == b;
    } else {
      var head := if a[0] == c then [] else [a[0]];
      calc {
        Without(a + b, c);
        { assert (a + b)[0] == a[0] && (a + b)[1..] == a[1..] + b; WithoutStep(a + b, c); }
        head + Without(a[1..] + b, c);
        { WithoutAppend(a[1..], b, c); }
        head + (Without(a[1..], c) + Without(b, c));
        { Regroup(head, Without(a[1..], c), Without(b, c)); }
        (head + Without(a[1..], c)) + Without(b, c);
        { WithoutStep(a, c); }
        Without(a, c) + Without(b, c);
      }
    }
  }

  /** One step of Without: the first character, unless it is c, then the rest. */
  lemma WithoutStep(s: string, c: char)
    requires s != []
    ensures Without(s, c) == (if s[0] == c then [] else [s[0]]) + Without(s[1..], c)
  {
  }

  /** The fields separated by sep (Python's sep.join(fields)). */
  function JoinWith(fields: seq<string>, sep: char): string
  {
    if |fields| == 0 then []
    else if |fields| == 1 then fields[0]
    else fields[0] + [sep] + JoinWith(fields[1..], sep)
  }

  /** The pieces of s between occurrences of sep (Python's s.split(sep)): never
      empty, and no piece contains sep. */
  function SplitOn(s: string, sep: char): (fields: seq<string>)
    ensures |fields| >= 1
    ensures forall f :: f in fields ==> sep !in f
    decreases |s|
  {
    if sep !in s then [s]
    else
      var i := IndexOf(s, sep);
      [s[..i]] + SplitOn(s[i + 1..], sep)
  }

  lemma Regroup<T>(a: seq<T>, b: seq<T>, c: seq<T>)
    ensures a + (b + c) == (a + b) + c
  {
  }

  /** The two sides of a separator, taken back apart. */
  lemma Pieces<T>(a: seq<T>, x: T, b: seq<T>)
    ensures (a + [x] + b)[..|a|] == a && (a + [x] + b)[|a| + 1..] == b
  {
  }

  /** One step of SplitOn: the first piece, the separator, and the rest. */
  lemma SplitStep(s: string, sep: char) returns (i: nat)
    requires sep in s
    ensures i < |s| && s == s[..i] + [sep] + s[i + 1..]
    ensures SplitOn(s, sep) == [s[..i]] + SplitOn(s[i + 1..], sep)
  {
    i := IndexOf(s, sep);
  }

  lemma JoinCons(head: string, rest: seq<string>, sep: char)
    requires |rest| >= 1
    ensures JoinWith([head] + rest, sep) == head + [sep] + JoinWith(rest, sep)
  {
    assert ([head] + rest)[1..] == rest;
  }

  /** Joining the pieces of a split gives back the string. */
  lemma {:induction false} JoinSplit(s: string, sep: char)
    ensures JoinWith(SplitOn(s, sep), sep) == s
    decreases |s|
  {
    if sep in s {
      var i := SplitStep(s, sep);
      JoinSplit(s[i + 1..], sep);
      JoinCons(s[..i], SplitOn(s[i + 1..], sep), sep);
    }
  }

  /** Splitting a join of separator-free fields gives back the fields. */
  lemma {:induction false} SplitJoin(fields: seq<string>, sep: char)
    requires |fields| >= 1
    requires forall f :: f in fields ==> sep !in f
    ensures SplitOn(JoinWith(fields, sep), sep) == fields
    decreases |fields|
  {
    if |fields| > 1 {
      var head, rest := fields[0], fields[1..];
      var tail := JoinWith(rest, sep);
      assert fields == [head] + rest;
      JoinCons(head, rest, sep);
      assert sep !in head by { assert head in fields; }
      IndexOfAfter(head, tail, sep);
      Pieces(head, sep, tail);
      assert forall f :: f in rest ==> sep !in f by {
        forall f | f in rest ensures sep !in f { assert f in fields; }
      }
      SplitJoin(rest, sep);
    }
  }

  /** Each record followed by a newline, concatenated. */
  function JoinLines(lines: seq<string>): string
  {
    if lines == [] then [] else lines[0] + "\n" + JoinLines(lines[1..])
  }

  lemma {:induction false} JoinLinesSnoc(lines: seq<string>, line: string)
    ensures JoinLines(lines + [line]) == JoinLines(lines) + line + "\n"
  {
    if lines != [] {
      assert (lines + [line])[1..] == lines[1..] + [line];
      JoinLinesSnoc(lines[1..], line);
    }
  }

  /** No record holds the character c. */
  predicate Free(lines: seq<string>, c: char)
  {
    forall l :: l in lines ==> c !in l
  }

  lemma FreeAppend(a: seq<string>, b: seq<string>, c: char)
    requires Free(a, c)
    ensures Free(b, c) ==> Free(a + b, c)
  {
    if Free(b, c) {
      forall l | l in a + b ensures c !in l {
        if l in a { } else { assert l in b; }
      }
    }
  }

  lemma FreeTail(lines: seq<string>, c: char)
    requires Free(lines, c) && lines != []
    ensures c !in lines[0] && Free(lines[1..], c)
  {
    assert lines[0] in lines;
    forall l | l in lines[1..] ensures c !in l { assert l in lines; }
  }

  /** A string that is one line: it ends in a newline, and holds no other. */
  predicate OneLine(r: string)
  {
    |r| >= 1 && r[|r| - 1] == '\n' && '\n' !in r[..|r| - 1]
  }

  /** A protocol record: fields joined by commas, then one newline. It is
      what Handler.send writes and what client_chunk and client_block print.
      When no field holds a newline, the record is exactly one line. */
  function Record(fields: seq<string>): (r: string)
    ensures |r| >= 1 && r[|r| - 1] == '\n'
    ensures Free(fields, '\n') ==> '\n' !in r[..|r| - 1]
  {
    var line := JoinWith(fields, ',');
    assert Free(fields, '\n') ==> '\n' !in line by {
      if Free(fields, '\n') {
        JoinFree(fields, ',', '\n');
      }
    }
    assert (line + "\n")[..|line|] == line;
    line + "\n"
  }

  /** A character that is in no field, and is not the separator, is not in their join. */
  lemma {:induction false} JoinFree(fields: seq<string>, sep: char, c: char)
    requires Free(fields, c) && c != sep
    ensures c !in JoinWith(fields, sep)
    decreases |fields|
  {
    if |fields| > 1 {
      assert fields[0] in fields;
      assert Free(fields[1..], c) by {
        forall f | f in fields[1..] ensures c !in f { assert f in fields; }
      }
      JoinFree(fields[1..], sep, c);
    } else if |fields| == 1 {
      assert fields[0] in fields;
    }
  }
}
