/** Splitting, joining and trimming strings. */
module Text {

  datatype Result<+T> = Ok(value: T) | Err

  /** White space as Unicode defines it. */
  predicate IsSpace(c: char) {
    var n := c as int;
    || 0x09 <= n <= 0x0d || n == 0x20 || n == 0x85 || n == 0xa0 || n == 0x1680
    || 0x2000 <= n <= 0x200a || n == 0x2028 || n == 0x2029 || n == 0x202f || n == 0x205f || n == 0x3000
  }

  function TrimLeft(s: string): (r: string)
    ensures |r| <= |s| && r == s[|s| - |r|..]
    ensures r != "" ==> !IsSpace(r[0])
    ensures s == "" || !IsSpace(s[0]) ==> r == s
  {
    if s != "" && IsSpace(s[0]) then TrimLeft(s[1..]) else s
  }

  function TrimRight(s: string): (r: string)
    ensures |r| <= |s| && r == s[..|r|]
    ensures r != "" ==> !IsSpace(r[|r| - 1])
    ensures s == "" || !IsSpace(s[|s| - 1]) ==> r == s
  {
    if s != "" && IsSpace(s[|s| - 1]) then TrimRight(s[..|s| - 1]) else s
  }

  function TrimSpace(s: string): (r: string)
    ensures s == r <==> s == "" || (!IsSpace(s[0]) && !IsSpace(s[|s| - 1]))
  {
    TrimRight(TrimLeft(s))
  }

  function Join(parts: seq<string>, sep: char): string {
    if parts == [] then ""
    else if |parts| == 1 then parts[0]
    else Join(parts[..|parts| - 1], sep) + [sep] + parts[|parts| - 1]
  }

  /** The parts of s between separators: always at least one. */
  function Split(s: string, sep: char): (parts: seq<string>)
    ensures parts != []
  {
    if s == "" then [""]
    else
      var front, c := Split(s[..|s| - 1], sep), s[|s| - 1];
      if c == sep then front + [""] else front[|front| - 1 := front[|front| - 1] + [c]]
  }

  lemma JoinExtend(parts: seq<string>, sep: char, tail: string)
    requires parts != []
    ensures Join(parts[|parts| - 1 := parts[|parts| - 1] + tail], sep) == Join(parts, sep) + tail
  {
    var more := parts[|parts| - 1 := parts[|parts| - 1] + tail];
    if |parts| > 1 {
      assert more[..|more| - 1] == parts[..|parts| - 1];
    }
  }

  lemma JoinAppend(parts: seq<string>, sep: char, part: string)
    requires parts != []
    ensures Join(parts + [part], sep) == Join(parts, sep) + [sep] + part
  {
    assert (parts + [part])[..|parts|] == parts;
  }

  /** Splitting loses nothing, and no part holds a separator. */
  lemma {:induction false} JoinSplit(s: string, sep: char)
    ensures Join(Split(s, sep), sep) == s
    ensures forall p :: p in Split(s, sep) ==> sep !in p
  {
    if s != "" {
      var f, c := s[..|s| - 1], s[|s| - 1];
      JoinSplit(f, sep);
      assert s == f + [c];
      if c == sep {
        JoinAppend(Split(f, sep), sep, "");
        assert f + [sep] + "" == s;
      } else {
        JoinExtend(Split(f, sep), sep, [c]);
      }
    }
  }

  lemma {:induction false} SplitAppend(s: string, sep: char, t: string)
    requires sep !in t
    ensures Split(s + t, sep) == var p := Split(s, sep); p[|p| - 1 := p[|p| - 1] + t]
  {
    var p := Split(s, sep);
    if t == "" {
      assert s + t == s && p[|p| - 1] + t == p[|p| - 1];
    } else {
      var f, c := t[..|t| - 1], t[|t| - 1];
      assert (s + t)[..|s + t| - 1] == s + f;
      SplitAppend(s, sep, f);
      assert f + [c] == t;
      assert p[|p| - 1] + f + [c] == p[|p| - 1] + t;
    }
  }

  /** Joining loses nothing either, for parts without separators. */
  lemma {:induction false} SplitJoin(parts: seq<string>, sep: char)
    requires parts != [] && forall p :: p in parts ==> sep !in p
    ensures Split(Join(parts, sep), sep) == parts
  {
    var last := parts[|parts| - 1];
    if |parts| == 1 {
      assert "" + last == last;
      SplitAppend("", sep, last);
      assert parts == [last];
    } else {
      var front := parts[..|parts| - 1];
      SplitJoin(front, sep);
      var s := Join(front, sep) + [sep];
      assert s[..|s| - 1] == Join(front, sep);
      assert Split(s, sep) == front + [""];
      SplitAppend(s, sep, last);
      assert "" + last == last;
      assert parts == front + [last];
    }
  }
}
