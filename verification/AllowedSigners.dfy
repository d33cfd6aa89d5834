/** The fields of an OpenSSH allowed-signers line, as described in section
    ALLOWED SIGNERS of ssh-keygen(1). */
module AllowedSigners {
  import opened Text

  // ----------------------------------------------------------------- quoting

  /** An odd number of quotes: the end of s is inside a quotation. */
  predicate InQuote(s: string) {
    if s == "" then false
    else if s[|s| - 1] == '"' then !InQuote(s[..|s| - 1])
    else InQuote(s[..|s| - 1])
  }

  lemma {:induction false} InQuoteConcat(s: string, t: string)
    ensures InQuote(s + t) <==> InQuote(s) != InQuote(t)
  {
    if t == "" {
      assert s + t == s;
    } else {
      assert (s + t)[..|s + t| - 1] == s + t[..|t| - 1];
      InQuoteConcat(s, t[..|t| - 1]);
    }
  }

  lemma {:induction false} NoQuotes(s: string)
    requires '"' !in s
    ensures !InQuote(s)
  {
    if s != "" {
      NoQuotes(s[..|s| - 1]);
    }
  }

  // ----------------------------------------------------------- option tokens

  /** Position i of s is a comma outside quotations. */
  predicate IsSeparator(s: string, i: int) {
    0 <= i < |s| && s[i] == ',' && !InQuote(s[..i])
  }

  /** An option: not empty, quotes closed, no comma outside quotations. */
  ghost predicate IsToken(t: string) {
    t != "" && !InQuote(t) && forall i :: !IsSeparator(t, i)
  }

  ghost predicate AreTokensOf(s: string, tokens: seq<string>) {
    tokens != [] && Join(tokens, ',') == s && forall t :: t in tokens ==> IsToken(t)
  }

  /** A segment between separators, or between one and an end, that is empty. */
  ghost predicate EmptySegment(s: string, i: int) {
    0 <= i <= |s| && (i == 0 || IsSeparator(s, i - 1)) && (i == |s| || IsSeparator(s, i))
  }

  /** Appending to s changes nothing about the positions of s. */
  lemma SeparatorsOfPrefix(s: string, t: string, i: int)
    requires i < |s|
    ensures IsSeparator(s + t, i) <==> IsSeparator(s, i)
  {
    if 0 <= i {
      assert (s + t)[..i] == s[..i];
    }
  }

  lemma SeparatorsOfSuffix(s: string, t: string, i: int)
    requires 0 <= i < |t| && !InQuote(s)
    ensures IsSeparator(s + t, |s| + i) <==> IsSeparator(t, i)
  {
    assert (s + t)[..|s| + i] == s + t[..i];
    InQuoteConcat(s, t[..i]);
  }

  lemma {:induction false} JoinedTokensAreClosed(tokens: seq<string>)
    requires forall t :: t in tokens ==> IsToken(t)
    ensures !InQuote(Join(tokens, ','))
  {
    assert tokens != [] ==> IsToken(tokens[|tokens| - 1]);
    if |tokens| > 1 {
      var front, last := tokens[..|tokens| - 1], tokens[|tokens| - 1];
      JoinedTokensAreClosed(front);
      NoQuotes([',']);
      InQuoteConcat(Join(front, ','), [',']);
      InQuoteConcat(Join(front, ',') + [','], last);
    }
  }

  /** The last token of a list starts right after the last separator. */
  lemma LastTokenStart(tokens: seq<string>)
    requires tokens != [] && forall t :: t in tokens ==> IsToken(t)
    ensures var s := Join(tokens, ','); var n := |s| - |tokens[|tokens| - 1]|;
      && 0 <= n
      && (|tokens| == 1 <==> n == 0) && (|tokens| > 1 ==> IsSeparator(s, n - 1))
      && s == s[..n] + tokens[|tokens| - 1]
      && forall i :: n <= i ==> !IsSeparator(s, i)
  {
    var s, last := Join(tokens, ','), tokens[|tokens| - 1];
    assert IsToken(last);
    if |tokens| == 1 {
      assert s[..0] + last == s;
    } else {
      var front := Join(tokens[..|tokens| - 1], ',');
      var n := |front| + 1;
      JoinedTokensAreClosed(tokens[..|tokens| - 1]);
      NoQuotes([',']);
      InQuoteConcat(front, [',']);
      assert s[..n] == front + [','] && s[..n - 1] == front;
      NoSeparatorInToken(front + [','], last, s);
    }
  }

  lemma NoSeparatorInToken(before: string, token: string, s: string)
    requires !InQuote(before) && IsToken(token) && s == before + token
    ensures forall i :: |before| <= i ==> !IsSeparator(s, i)
  {
    forall i | |before| <= i ensures !IsSeparator(s, i) {
      if i < |s| {
        SeparatorsOfSuffix(before, token, i - |before|);
      }
    }
  }

  /** A string has at most one list of tokens. */
  lemma {:induction false} TokensAreUnique(a: seq<string>, b: seq<string>)
    requires a != [] && b != [] && Join(a, ',') == Join(b, ',')
    requires forall t :: t in a || t in b ==> IsToken(t)
    ensures a == b
    decreases |a|
  {
    LastTokenStart(a);
    LastTokenStart(b);
    var s := Join(a, ',');
    var n, m := |s| - |a[|a| - 1]|, |s| - |b[|b| - 1]|;
    assert n == m;
    assert a[|a| - 1] == s[n..] == b[|b| - 1];
    if |a| > 1 {
      var fa, fb := a[..|a| - 1], b[..|b| - 1];
      assert s[..n - 1] == Join(fa, ',') == Join(fb, ',');
      TokensAreUnique(fa, fb);
      assert a == fa + [a[|a| - 1]] && b == fb + [b[|b| - 1]];
    }
  }

  lemma {:induction false} TokensHaveNoEmptySegment(tokens: seq<string>, i: int)
    requires forall t :: t in tokens ==> IsToken(t)
    requires tokens != []
    ensures !EmptySegment(Join(tokens, ','), i)
  {
    var s, last := Join(tokens, ','), tokens[|tokens| - 1];
    LastTokenStart(tokens);
    assert IsToken(last);
    var n := |s| - |last|;
    if |tokens| > 1 && i < n {
      var front := Join(tokens[..|tokens| - 1], ',');
      TokensHaveNoEmptySegment(tokens[..|tokens| - 1], i);
      assert s == front + ([','] + last);
      if 0 <= i {
        if i < |front| {
          SeparatorsOfPrefix(front, [','] + last, i);
        }
        if 0 < i {
          SeparatorsOfPrefix(front, [','] + last, i - 1);
        }
      }
    }
  }

  /** The first i characters are split: `tokens` up to the last separator, and a
      segment since `start` that has none. */
  ghost predicate Splitting(s: string, i: nat, start: nat, tokens: seq<string>) {
    && start <= i <= |s| && !InQuote(s[..start])
    && (start == 0 <==> tokens == [])
    && (start > 0 ==> IsSeparator(s, start - 1) && Join(tokens, ',') == s[..start - 1])
    && (forall t :: t in tokens ==> IsToken(t))
    && forall k :: start <= k < i ==> !IsSeparator(s, k)
  }

  lemma InQuoteNext(s: string, i: nat)
    requires i < |s|
    ensures InQuote(s[..i + 1]) == if s[i] == '"' then !InQuote(s[..i]) else InQuote(s[..i])
  {
    assert s[..i + 1][..i] == s[..i];
  }

  lemma SplittingGoesOn(s: string, i: nat, start: nat, tokens: seq<string>)
    requires Splitting(s, i, start, tokens) && i < |s| && !IsSeparator(s, i)
    ensures Splitting(s, i + 1, start, tokens)
  {
  }

  lemma SplittingCuts(s: string, i: nat, start: nat, tokens: seq<string>)
    requires Splitting(s, i, start, tokens) && IsSeparator(s, i) && start < i
    ensures Splitting(s, i + 1, i + 1, tokens + [s[start..i]])
  {
    SegmentIsToken(s, start, i);
    AppendSegment(s, start, i, tokens);
    InQuoteNext(s, i);
  }

  lemma SplittingEnds(s: string, start: nat, tokens: seq<string>)
    requires Splitting(s, |s|, start, tokens) && !InQuote(s) && start < |s|
    ensures AreTokensOf(s, tokens + [s[start..]])
  {
    assert s[..|s|] == s && s[start..|s|] == s[start..];
    SegmentIsToken(s, start, |s|);
    AppendSegment(s, start, |s|, tokens);
  }

  method SplitOptionTokens(options: string) returns (r: Result<seq<string>>)
    ensures r.Ok? ==> AreTokensOf(options, r.value)
    ensures r.Err? <==> InQuote(options) || exists i :: EmptySegment(options, i)
    ensures r.Err? <==> !exists tokens :: AreTokensOf(options, tokens)
  {
    var tokens: seq<string> := [];
    var start := 0;
    var inQuote := false;
    for i := 0 to |options|
      invariant 0 <= start <= i && Splitting(options, i, start, tokens) && inQuote == InQuote(options[..i])
    {
      var c := options[i];
      InQuoteNext(options, i);
      if c == '"' {
        inQuote := !inQuote;
        SplittingGoesOn(options, i, start, tokens);
        continue;
      }
      if c == ',' && !inQuote {
        var token := options[start..i];
        if token == "" {
          ErrWhenEmptySegment(options, start);
          return Err;
        }
        SplittingCuts(options, i, start, tokens);
        tokens := tokens + [token];
        start := i + 1;
      } else {
        SplittingGoesOn(options, i, start, tokens);
      }
    }
    assert options[..|options|] == options;
    if inQuote {
      ErrWhenUnclosed(options);
      return Err;
    }
    var token := options[start..];
    if token == "" {
      ErrWhenEmptySegment(options, start);
      return Err;
    }
    SplittingEnds(options, start, tokens);
    tokens := tokens + [token];
    OkWhenTokens(options, tokens);
    return Ok(tokens);
  }

  lemma ErrWhenUnclosed(options: string)
    requires InQuote(options)
    ensures !exists tokens :: AreTokensOf(options, tokens)
  {
    forall ts ensures !AreTokensOf(options, ts) {
      if AreTokensOf(options, ts) {
        JoinedTokensAreClosed(ts);
      }
    }
  }

  lemma OkWhenTokens(options: string, tokens: seq<string>)
    requires AreTokensOf(options, tokens)
    ensures !InQuote(options) && !exists i :: EmptySegment(options, i)
  {
    JoinedTokensAreClosed(tokens);
    forall i ensures !EmptySegment(options, i) {
      TokensHaveNoEmptySegment(tokens, i);
    }
  }

  lemma ErrWhenEmptySegment(options: string, i: int)
    requires EmptySegment(options, i)
    ensures exists k :: EmptySegment(options, k)
    ensures !exists tokens :: AreTokensOf(options, tokens)
  {
    forall ts ensures !AreTokensOf(options, ts) {
      if AreTokensOf(options, ts) {
        TokensHaveNoEmptySegment(ts, i);
      }
    }
  }

  lemma SegmentIsToken(s: string, start: nat, end: nat)
    requires start < end <= |s| && !InQuote(s[..start]) && !InQuote(s[..end])
    requires forall k :: start <= k < end ==> !IsSeparator(s, k)
    ensures IsToken(s[start..end])
  {
    var t := s[start..end];
    assert s[..start] + t == s[..end];
    InQuoteConcat(s[..start], t);
    forall i ensures !IsSeparator(t, i) {
      if 0 <= i < |t| {
        assert !IsSeparator(s, start + i);
        assert s[..start + i] == s[..start] + t[..i];
        InQuoteConcat(s[..start], t[..i]);
      }
    }
  }

  lemma AppendSegment(s: string, start: nat, end: nat, tokens: seq<string>)
    requires start <= end <= |s| && (start == 0 <==> tokens == [])
    requires start > 0 ==> s[start - 1] == ',' && Join(tokens, ',') == s[..start - 1]
    ensures Join(tokens + [s[start..end]], ',') == s[..end]
  {
    if tokens != [] {
      JoinAppend(tokens, ',', s[start..end]);
      assert s[..start - 1] + [','] + s[start..end] == s[..end];
    }
  }

  // -------------------------------------------------------------- namespaces

  predicate IsSupportedPattern(p: string) {
    p != "" && p == TrimSpace(p) && (p == "*" || forall c :: c in p ==> c !in "*?!\"'")
  }

  const KEY := "namespaces="

  function ParseOptionValue(v: string): Result<string> {
    if !("\"" <= v) || v == "" || v[|v| - 1] != '"' || '\\' in v then Err
    else if |v| == 1 then Ok("")
    else Ok(v[1..|v| - 1])
  }

  /** A namespace that can be printed. */
  ghost predicate IsNamespace(n: string) {
    IsSupportedPattern(n) && ',' !in n && '\\' !in n
  }

  ghost predicate AreNamespaces(ns: seq<string>) {
    ns != [] && forall n :: n in ns ==> IsNamespace(n)
  }

  /** The option that restricts a signer to the namespaces ns. */
  function PrintNamespaces(ns: seq<string>): string {
    KEY + "\"" + Join(ns, ',') + "\""
  }

  lemma {:induction false} JoinMembers(ns: seq<string>, c: char)
    requires c in Join(ns, ',') && c != ','
    ensures exists n :: n in ns && c in n
  {
    if |ns| > 1 {
      var front, last := ns[..|ns| - 1], ns[|ns| - 1];
      if c in last {
        assert last in ns;
      } else {
        JoinMembers(front, c);
        var n :| n in front && c in n;
        assert n in ns;
      }
    } else if |ns| == 1 {
      assert ns[0] in ns;
    }
  }

  lemma {:induction false} MembersOfJoin(ns: seq<string>, n: string, c: char)
    requires n in ns && c in n
    ensures c in Join(ns, ',')
  {
    if |ns| > 1 && n != ns[|ns| - 1] {
      MembersOfJoin(ns[..|ns| - 1], n, c);
    }
  }

  /** A printed option is a single token, whatever the commas in it. */
  lemma PrintedIsToken(ns: seq<string>)
    requires AreNamespaces(ns)
    ensures IsToken(PrintNamespaces(ns))
    ensures AreTokensOf(PrintNamespaces(ns), [PrintNamespaces(ns)])
  {
    var body := Join(ns, ',');
    assert '"' !in body && '\\' !in body by {
      if '"' in body {
        JoinMembers(ns, '"');
      }
      if '\\' in body {
        JoinMembers(ns, '\\');
      }
    }
    var t := PrintNamespaces(ns);
    var open := KEY + "\"";
    NoQuotes(KEY);
    NoQuotes(body);
    assert open[..|open| - 1] == KEY;
    InQuoteConcat(open, body);
    assert t == open + body + "\"" && t[..|t| - 1] == open + body;
    forall i ensures !IsSeparator(t, i) {
      if |open| <= i < |t| - 1 {
        assert t[..i] == open + body[..i - |open|];
        NoQuotes(body[..i - |open|]);
        InQuoteConcat(open, body[..i - |open|]);
      }
    }
  }

  method NamespacesFromOptions(options: string) returns (r: Result<seq<string>>)
    ensures options == "" ==> r == Ok([])
    ensures options != "" ==> forall ns :: r == Ok(ns) <==> AreNamespaces(ns) && options == PrintNamespaces(ns)
  {
    if options == "" {
      return Ok([]);
    }
    var tokens := SplitOptionTokens(options);
    if tokens.Err? {
      forall ns | AreNamespaces(ns) ensures options != PrintNamespaces(ns) {
        PrintedIsToken(ns);
      }
      return Err;
    }
    forall ns | AreNamespaces(ns) && options == PrintNamespaces(ns) ensures tokens.value == [options] {
      PrintedIsToken(ns);
      TokensAreUnique(tokens.value, [options]);
    }
    var namespaces: seq<string> := [];
    var seen := false;
    for i := 0 to |tokens.value|
      invariant seen <==> i > 0
      invariant seen ==> AreNamespaces(namespaces) && tokens.value[0] == PrintNamespaces(namespaces)
      invariant i <= 1
    {
      var option := tokens.value[i];
      if KEY <= option {
        if seen {
          return Err;
        }
        seen := true;
        var parsed := OptionNamespaces(option);
        if parsed.Err? {
          return Err;
        }
        namespaces := parsed.value;
        continue;
      }
      forall ns ensures option != PrintNamespaces(ns) {}
      return Err;
    }
    assert |tokens.value| == 1 && tokens.value == [tokens.value[0]];
    forall ns | AreNamespaces(ns) && options == PrintNamespaces(ns) ensures ns == namespaces {
      PrintIsInjective(ns, namespaces);
    }
    return Ok(namespaces);
  }

  lemma PrintIsInjective(a: seq<string>, b: seq<string>)
    requires AreNamespaces(a) && AreNamespaces(b) && PrintNamespaces(a) == PrintNamespaces(b)
    ensures a == b
  {
    var n := |KEY + "\""|;
    assert PrintNamespaces(a)[n..|PrintNamespaces(a)| - 1] == Join(a, ',');
    assert PrintNamespaces(b)[n..|PrintNamespaces(b)| - 1] == Join(b, ',');
    SplitJoin(a, ',');
    SplitJoin(b, ',');
  }

  /** Parsing the value of a printed option gives back what was printed. */
  lemma PrintedValue(ns: seq<string>)
    requires AreNamespaces(ns)
    ensures ParseOptionValue(PrintNamespaces(ns)[|KEY|..]) == Ok(Join(ns, ','))
    ensures Split(Join(ns, ','), ',') == ns
  {
    var v := PrintNamespaces(ns)[|KEY|..];
    assert v == "\"" + Join(ns, ',') + "\"";
    SplitJoin(ns, ',');
    if '\\' in Join(ns, ',') {
      JoinMembers(ns, '\\');
    }
    assert v[1..|v| - 1] == Join(ns, ',');
  }

  /** An accepted value prints back to the option it comes from. */
  lemma ValueIsPrinted(option: string, parts: seq<string>)
    requires KEY <= option
    requires var value := ParseOptionValue(option[|KEY|..]); value.Ok? && parts == Split(value.value, ',')
    requires forall n :: n in parts ==> IsSupportedPattern(n)
    ensures AreNamespaces(parts) && option == PrintNamespaces(parts)
  {
    var v := option[|KEY|..];
    var value := ParseOptionValue(v).value;
    JoinSplit(value, ',');
    assert |v| != 1 by {
      assert value == "" ==> parts[0] == "";
      assert !IsSupportedPattern("");
    }
    assert v == "\"" + value + "\"";
    forall n | n in parts ensures IsNamespace(n) {
      if '\\' in n {
        MembersOfJoin(parts, n, '\\');
      }
    }
    assert option == KEY + v;
  }

  /** The value of one "namespaces" option. */
  method OptionNamespaces(option: string) returns (r: Result<seq<string>>)
    requires KEY <= option
    ensures forall ns :: r == Ok(ns) <==> AreNamespaces(ns) && option == PrintNamespaces(ns)
  {
    var value := ParseOptionValue(option[|KEY|..]);
    forall ns | AreNamespaces(ns) && option == PrintNamespaces(ns)
      ensures value.Ok? && Split(value.value, ',') == ns
    {
      PrintedValue(ns);
    }
    if value.Err? {
      return Err;
    }
    var parts := Split(value.value, ',');
    var namespaces: seq<string> := [];
    for i := 0 to |parts|
      invariant namespaces == parts[..i]
      invariant forall n :: n in namespaces ==> IsSupportedPattern(n)
    {
      if !IsSupportedPattern(parts[i]) {
        assert !AreNamespaces(parts) by {
          assert parts[i] in parts;
        }
        return Err;
      }
      namespaces := namespaces + [parts[i]];
    }
    assert namespaces == parts;
    ValueIsPrinted(option, parts);
    return Ok(namespaces);
  }

  /** Whether a signer may sign in a namespace. */
  method AllowsNamespace(namespaces: seq<string>, namespace: string) returns (ok: bool)
    ensures ok <==> namespaces == [] || namespace in namespaces || "*" in namespaces
  {
    if |namespaces| == 0 {
      return true;
    }
    for i := 0 to |namespaces|
      invariant namespace !in namespaces[..i] && "*" !in namespaces[..i]
    {
      if namespaces[i] == namespace || namespaces[i] == "*" {
        return true;
      }
    }
    assert namespaces[..|namespaces|] == namespaces;
    return false;
  }
}
