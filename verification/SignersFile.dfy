/** Lines and files of allowed signers. */
module SignersFile {
  import opened Text
  import opened AllowedSigners

  type Key = string

  datatype Signer = Signer(principal: string, key: Key, namespaces: seq<string>)

  /** Reading the public key at the end of a line is left to a library. */
  type KeyReader = string -> Result<Key>

  // ------------------------------------------------------------ specification

  function FirstSpace(s: string): (i: nat)
    ensures i <= |s| && (i < |s| ==> IsSpace(s[i]))
    ensures forall k :: 0 <= k < i ==> !IsSpace(s[k])
  {
    if s == "" || IsSpace(s[0]) then 0 else 1 + FirstSpace(s[1..])
  }

  /** White space outside quotations. */
  predicate IsBreak(s: string, i: int) {
    0 <= i < |s| && IsSpace(s[i]) && !InQuote(s[..i])
  }

  function FirstBreak(s: string, from: nat): (i: nat)
    requires from <= |s|
    ensures from <= i <= |s| && (i < |s| ==> IsBreak(s, i))
    ensures forall k :: from <= k < i ==> !IsBreak(s, k)
    decreases |s| - from
  {
    if from == |s| || IsBreak(s, from) then from else FirstBreak(s, from + 1)
  }

  /** The first token of s and what follows it. */
  function FirstToken(s: string): Result<(string, string)> {
    var i := FirstBreak(s, 0);
    if i < |s| then Ok((s[..i], TrimLeft(s[i..])))
    else if InQuote(s) then Err
    else Ok((s, ""))
  }

  predicate IsKeyType(token: string) {
    "ssh-" <= token || "ecdsa-" <= token || "sk-" <= token
  }

  /** The options and the key after the principals. */
  function OptionsAndKey(rest: string): Result<(string, string)> {
    match FirstToken(rest)
    case Err => Err
    case Ok((first, remaining)) =>
      if first == "" then Err
      else if IsKeyType(first) then Ok(("", rest))
      else if remaining == "" then Err
      else Ok((first, remaining))
  }

  /** The namespaces an option field prints, or none for an empty field. */
  ghost function Namespaces(options: string): Result<seq<string>> {
    if options == "" then Ok([])
    else if exists ns :: AreNamespaces(ns) && options == PrintNamespaces(ns) then
      var ns :| AreNamespaces(ns) && options == PrintNamespaces(ns);
      Ok(ns)
    else Err
  }

  predicate ArePrincipals(principals: seq<string>) {
    forall p :: p in principals ==> IsSupportedPattern(p)
  }

  ghost function SignerOfLine(line: string, read: KeyReader): Result<Signer> {
    var i := FirstSpace(line);
    if i == |line| then Err
    else SignerOfFields(Split(line[..i], ','), OptionsAndKey(TrimLeft(line[i..])), read)
  }

  ghost function SignerOfFields(principals: seq<string>, fields: Result<(string, string)>, read: KeyReader):
    Result<Signer>
    requires principals != []
  {
    if !ArePrincipals(principals) || fields.Err? then Err
    else
      var namespaces, key := Namespaces(fields.value.0), read(fields.value.1);
      if namespaces.Err? || key.Err? then Err
      else Ok(Signer(principals[0], key.value, namespaces.value))
  }

  predicate IsSignificant(line: string) {
    TrimSpace(line) != "" && TrimSpace(line)[0] != '#'
  }

  /** The signers of the first lines of a file, if they all can be read. */
  ghost function SignersOfLines(lines: seq<string>, read: KeyReader): Result<seq<Signer>> {
    if lines == [] then Ok([])
    else WithLine(SignersOfLines(lines[..|lines| - 1], read), lines[|lines| - 1], read)
  }

  ghost function WithLine(before: Result<seq<Signer>>, line: string, read: KeyReader): Result<seq<Signer>> {
    if before.Err? || !IsSignificant(line) then before
    else
      var signer := SignerOfLine(TrimSpace(line), read);
      if signer.Err? then Err else Ok(before.value + [signer.value])
  }

  // -------------------------------------------------------------- the program

  method SplitToken(s: string) returns (r: Result<(string, string)>)
    ensures r == FirstToken(s)
  {
    var inQuote := false;
    for i := 0 to |s|
      invariant inQuote == InQuote(s[..i])
      invariant i <= FirstBreak(s, 0)
    {
      assert s[..i + 1][..i] == s[..i];
      if s[i] == '"' {
        inQuote := !inQuote;
        continue;
      }
      if IsSpace(s[i]) && !inQuote {
        assert IsBreak(s, i);
        return Ok((s[..i], TrimLeft(s[i..])));
      }
    }
    assert s[..|s|] == s;
    return if inQuote then Err else Ok((s, ""));
  }

  /** A token can end at i: outside quotations, at white space or at the end, with no
      white space outside quotations before it. */
  ghost predicate IsTokenEnd(s: string, i: int) {
    && 0 <= i <= |s| && !InQuote(s[..i]) && (i == |s| || IsSpace(s[i]))
    && forall k :: 0 <= k < i ==> !(IsSpace(s[k]) && !InQuote(s[..k]))
  }

  /** There is a first token exactly when it can end somewhere: an open quotation is
      refused. The token ends there, and white space behind it is dropped. */
  lemma FirstTokenIff(s: string, i: int)
    ensures FirstToken(s).Ok? ==> IsTokenEnd(s, |FirstToken(s).value.0|)
    ensures IsTokenEnd(s, i) ==> FirstToken(s) == Ok((s[..i], TrimLeft(s[i..])))
  {
    var n := FirstBreak(s, 0);
    assert n == |s| ==> s[..n] == s && s[n..] == "";
    forall k | 0 <= k < n ensures !(IsSpace(s[k]) && !InQuote(s[..k])) {
      assert !IsBreak(s, k);
    }
    if IsTokenEnd(s, i) {
      assert i < |s| ==> IsBreak(s, i);
      assert n < i ==> IsBreak(s, n);
      assert n == i;
    }
  }

  method SplitRest(rest: string) returns (r: Result<(string, string)>)
    ensures r == OptionsAndKey(rest)
  {
    var t := SplitToken(rest);
    if t.Err? || t.value.0 == "" {
      return Err;
    }
    if IsKeyType(t.value.0) {
      return Ok(("", rest));
    }
    if t.value.1 == "" {
      return Err;
    }
    return t;
  }

  predicate IsGap(s: string) {
    forall k :: 0 <= k < |s| ==> IsSpace(s[k])
  }

  /** Nothing is lost: options, white space and key make up the rest of the line.
      The options end outside a quotation, with white space behind them. */
  ghost predicate AreFields(rest: string, options: string, gap: string, key: string) {
    && rest == options + gap + key && IsGap(gap) && key != "" && !InQuote(options)
    && (options == "" ==> gap == "") && (options != "" ==> gap != "")
  }

  lemma FieldsAreLossless(rest: string)
    ensures OptionsAndKey(rest).Ok? ==>
      exists gap :: AreFields(rest, OptionsAndKey(rest).value.0, gap, OptionsAndKey(rest).value.1)
  {
    var fields := OptionsAndKey(rest);
    if fields.Ok? && fields.value.0 == "" {
      OnlyAKey(rest);
    } else if fields.Ok? {
      var gap := TokenIsSeparated(rest, fields.value.0, fields.value.1);
    }
  }

  lemma OnlyAKey(key: string)
    requires key != ""
    ensures AreFields(key, "", "", key)
  {
    assert "" + "" + key == key;
  }

  lemma TokenIsSeparated(s: string, first: string, remaining: string) returns (gap: string)
    requires FirstToken(s) == Ok((first, remaining)) && first != "" && remaining != ""
    ensures AreFields(s, first, gap, remaining)
  {
    FirstTokenIff(s, |first|);
    var i := |first|;
    var tail := s[i..];
    gap := GapOf(tail);
    WholeLine(s, i, gap, remaining);
  }

  lemma GapOf(s: string) returns (gap: string)
    ensures s == gap + TrimLeft(s) && IsGap(gap) && (s != "" && IsSpace(s[0]) ==> gap != "")
  {
    var rest := TrimLeft(s);
    var n := |s| - |rest|;
    gap := s[..n];
    TrimmedIsGap(s);
    SplitAt(s, n, rest);
  }

  lemma SplitAt(s: string, n: nat, rest: string)
    requires n <= |s| && rest == s[n..]
    ensures s == s[..n] + rest
  {
  }

  lemma {:induction false} TrimmedIsGap(s: string)
    ensures forall k :: 0 <= k < |s| - |TrimLeft(s)| ==> IsSpace(s[k])
  {
    if s != "" && IsSpace(s[0]) {
      TrimmedIsGap(s[1..]);
      assert forall k :: 0 < k < |s| - |TrimLeft(s)| ==> s[k] == s[1..][k - 1];
    }
  }

  method PrincipalFromPatternList(field: string) returns (r: Result<string>)
    ensures r == if ArePrincipals(Split(field, ',')) then Ok(Split(field, ',')[0]) else Err
  {
    var principals := Split(field, ',');
    for i := 0 to |principals|
      invariant ArePrincipals(principals[..i])
    {
      if !IsSupportedPattern(principals[i]) {
        assert principals[i] in principals;
        return Err;
      }
      assert principals[..i + 1] == principals[..i] + [principals[i]];
    }
    assert principals[..|principals|] == principals;
    return Ok(principals[0]);
  }

  method ParseLine(line: string, read: KeyReader) returns (r: Result<Signer>)
    ensures r == SignerOfLine(line, read)
  {
    var i := FirstSpace(line);
    if i == |line| {
      return Err;
    }
    var principal := PrincipalFromPatternList(line[..i]);
    if principal.Err? {
      return Err;
    }
    var fields := SplitRest(TrimLeft(line[i..]));
    if fields.Err? {
      return Err;
    }
    var namespaces := NamespacesFromOptions(fields.value.0);
    NamespacesAre(fields.value.0, namespaces);
    if namespaces.Err? {
      return Err;
    }
    var key := read(fields.value.1);
    if key.Err? {
      return Err;
    }
    return Ok(Signer(principal.value, key.value, namespaces.value));
  }

  lemma NamespacesAre(options: string, r: Result<seq<string>>)
    requires options == "" ==> r == Ok([])
    requires options != "" ==> forall ns :: r == Ok(ns) <==> AreNamespaces(ns) && options == PrintNamespaces(ns)
    ensures r == Namespaces(options)
  {
    if options != "" && r.Ok? {
      assert AreNamespaces(r.value) && options == PrintNamespaces(r.value);
      forall ns | AreNamespaces(ns) && options == PrintNamespaces(ns) ensures ns == r.value {
        PrintIsInjective(ns, r.value);
      }
    }
  }

  /** A file is refused when a line cannot be read or when it names no signer. */
  method ParseAllowedSigners(content: string, read: KeyReader) returns (r: Result<seq<Signer>>)
    ensures var signers := SignersOfLines(Split(content, '\n'), read);
      r == if signers.Err? || signers.value == [] then Err else signers
  {
    r := ParseLines(Split(content, '\n'), read);
  }

  method ParseLines(lines: seq<string>, read: KeyReader) returns (r: Result<seq<Signer>>)
    ensures var signers := SignersOfLines(lines, read);
      r == if signers.Err? || signers.value == [] then Err else signers
  {
    var signers: seq<Signer> := [];
    for i := 0 to |lines|
      invariant SignersOfLines(lines[..i], read) == Ok(signers)
    {
      NextLine(lines, i, read);
      var line := TrimSpace(lines[i]);
      if line == "" || line[0] == '#' {
        continue;
      }
      var signer := ParseLine(line, read);
      if signer.Err? {
        FailureStays(lines, i + 1, read);
        return Err;
      }
      signers := signers + [signer.value];
    }
    assert lines[..|lines|] == lines;
    return if |signers| == 0 then Err else Ok(signers);
  }

  lemma NextLine(lines: seq<string>, i: nat, read: KeyReader)
    requires i < |lines|
    ensures SignersOfLines(lines[..i + 1], read) == WithLine(SignersOfLines(lines[..i], read), lines[i], read)
  {
    assert lines[..i + 1][..i] == lines[..i];
  }

  lemma {:induction false} FailureStays(lines: seq<string>, i: nat, read: KeyReader)
    requires i <= |lines| && SignersOfLines(lines[..i], read).Err?
    ensures SignersOfLines(lines, read).Err?
    decreases |lines|
  {
    if i == |lines| {
      assert lines[..i] == lines;
    } else {
      assert lines[..|lines| - 1][..i] == lines[..i];
      FailureStays(lines[..|lines| - 1], i, read);
    }
  }

  ghost predicate SameSigners(a: seq<string>, b: seq<string>, read: KeyReader) {
    SignersOfLines(a, read) == SignersOfLines(b, read)
  }

  lemma {:induction false} SameThenLine(a: seq<string>, b: seq<string>, line: string, read: KeyReader)
    requires SameSigners(a, b, read)
    ensures SameSigners(a + [line], b + [line], read)
  {
    ThenLine(a, line, read);
    ThenLine(b, line, read);
  }

  /** A blank line or a comment. */
  predicate IsRemark(line: string) {
    TrimSpace(line) == "" || TrimSpace(line)[0] == '#'
  }

  lemma {:induction false} SameWithRemark(lines: seq<string>, remark: string, read: KeyReader)
    requires IsRemark(remark)
    ensures SameSigners(lines + [remark], lines, read)
  {
    ThenLine(lines, remark, read);
  }

  /** Blank lines and comments may be anywhere: the signers are those of the other
      lines. */
  lemma {:induction false} RemarksAreSkipped(before: seq<string>, remark: string, after: seq<string>, read: KeyReader)
    requires IsRemark(remark)
    ensures SameSigners(before + [remark] + after, before + after, read)
  {
    if after == [] {
      SameWithRemark(before, remark, read);
      assert before + [remark] + after == before + [remark] && before + after == before;
    } else {
      var front, line := after[..|after| - 1], after[|after| - 1];
      RemarksAreSkipped(before, remark, front, read);
      SameThenLine(before + [remark] + front, before + front, line, read);
      LastApart(before + [remark], after);
      LastApart(before, after);
    }
  }

  lemma LastApart(before: seq<string>, after: seq<string>)
    requires after != []
    ensures before + after == before + after[..|after| - 1] + [after[|after| - 1]]
  {
  }

  lemma {:induction false} ThenLine(lines: seq<string>, line: string, read: KeyReader)
    ensures SignersOfLines(lines + [line], read) == WithLine(SignersOfLines(lines, read), line, read)
  {
    assert (lines + [line])[..|lines|] == lines;
  }

  // --------------------------------------------------------------- round trip

  /** What a line can say: who, in which namespaces, with which key. */
  datatype Entry = Entry(principals: seq<string>, namespaces: seq<string>, key: string)

  ghost predicate IsEntry(e: Entry, read: KeyReader) {
    && e.principals != [] && ArePrincipals(e.principals)
    && (forall p :: p in e.principals ==> ',' !in p && forall i :: 0 <= i < |p| ==> !IsSpace(p[i]))
    && e.principals[0] != "" && e.principals[0][0] != '#'
    && (if e.namespaces == [] then FirstToken(e.key).Ok? && StartsLikeAKey(e.key) else AreNamespaces(e.namespaces))
    && e.key != "" && !IsSpace(e.key[0]) && !IsSpace(e.key[|e.key| - 1])
    && read(e.key).Ok?
  }

  /** Without options, the type of the key tells that the key follows: RSA, DSA and
      Ed25519 keys, ECDSA keys, and keys held by security hardware. */
  predicate StartsLikeAKey(s: string) {
    "ssh-" <= s || "ecdsa-" <= s || "sk-" <= s
  }

  /** What starts like a key has a first token that does, and no other. */
  lemma TokenStartsLikeAKey(s: string)
    requires FirstToken(s).Ok?
    ensures IsKeyType(FirstToken(s).value.0) <==> StartsLikeAKey(s)
  {
    KeyTypesHaveNoSpace();
    TokenHasPrefix(s, "ssh-");
    TokenHasPrefix(s, "ecdsa-");
    TokenHasPrefix(s, "sk-");
  }

  predicate HasNoSpace(s: string) {
    forall k :: 0 <= k < |s| ==> !IsSpace(s[k])
  }

  lemma KeyTypesHaveNoSpace()
    ensures HasNoSpace("ssh-") && HasNoSpace("ecdsa-") && HasNoSpace("sk-")
  {
  }

  lemma TokenHasPrefix(s: string, p: string)
    requires FirstToken(s).Ok? && HasNoSpace(p)
    ensures p <= FirstToken(s).value.0 <==> p <= s
  {
    var i := FirstBreak(s, 0);
    assert s[..i] <= s && FirstToken(s).value.0 == s[..i];
    assert p <= s ==> forall k :: 0 <= k < |p| ==> s[k] == p[k];
  }

  /** A line carries options exactly when what follows its principals does not start
      like a key. */
  lemma NoOptionsIff(rest: string)
    requires OptionsAndKey(rest).Ok?
    ensures OptionsAndKey(rest).value.0 == "" <==> StartsLikeAKey(rest)
    ensures StartsLikeAKey(rest) ==> OptionsAndKey(rest).value.1 == rest
  {
    TokenStartsLikeAKey(rest);
  }

  function PrintOptions(ns: seq<string>): string {
    if ns == [] then "" else PrintNamespaces(ns)
  }

  /** What follows the principals: the options, if any, and the key. */
  function PrintFields(e: Entry): string {
    if e.namespaces == [] then e.key else PrintNamespaces(e.namespaces) + " " + e.key
  }

  function PrintEntry(e: Entry): string {
    Join(e.principals, ',') + " " + PrintFields(e)
  }

  lemma {:induction false} JoinHasNoSpace(parts: seq<string>)
    requires forall p :: p in parts ==> forall i :: 0 <= i < |p| ==> !IsSpace(p[i])
    ensures forall i :: 0 <= i < |Join(parts, ',')| ==> !IsSpace(Join(parts, ',')[i])
  {
    if |parts| > 1 {
      JoinHasNoSpace(parts[..|parts| - 1]);
      assert parts[|parts| - 1] in parts;
    } else if |parts| == 1 {
      assert parts[0] in parts;
    }
  }

  /** Spaces in a printed option are quoted. */
  lemma PrintedHasNoBreak(ns: seq<string>, tail: string, i: int)
    requires AreNamespaces(ns) && i < |PrintNamespaces(ns)|
    ensures !IsBreak(PrintNamespaces(ns) + tail, i)
  {
    var t := PrintNamespaces(ns);
    var open, body := KEY + "\"", Join(ns, ',');
    if |open| <= i < |t| - 1 {
      assert (t + tail)[..i] == open + body[..i - |open|];
      assert '"' !in body by {
        if '"' in body {
          JoinMembers(ns, '"');
        }
      }
      assert open[..|open| - 1] == KEY;
      NoQuotes(KEY);
      NoQuotes(body[..i - |open|]);
      InQuoteConcat(open, body[..i - |open|]);
    }
  }

  lemma PrintedFirstToken(ns: seq<string>, t: string, key: string)
    requires AreNamespaces(ns) && t == PrintNamespaces(ns) && key != "" && !IsSpace(key[0])
    ensures FirstToken(t + " " + key) == Ok((t, key))
  {
    var tail := " " + key;
    var rest := t + " " + key;
    assert rest == t + tail;
    forall i | 0 <= i < |t| ensures !IsBreak(rest, i) {
      PrintedHasNoBreak(ns, tail, i);
    }
    PrintedIsToken(ns);
    TokenThenSpace(t, key);
  }

  lemma TokenThenSpace(t: string, key: string)
    requires !InQuote(t) && key != "" && !IsSpace(key[0])
    requires forall i :: 0 <= i < |t| ==> !IsBreak(t + " " + key, i)
    ensures FirstToken(t + " " + key) == Ok((t, key))
  {
    SpaceIsBreak(t, key);
    TrimOneSpace(key);
    FirstTokenAt(t + " " + key, |t|);
  }

  lemma FirstTokenAt(s: string, i: nat)
    requires IsBreak(s, i) && forall k :: 0 <= k < i ==> !IsBreak(s, k)
    ensures FirstToken(s) == Ok((s[..i], TrimLeft(s[i..])))
  {
    assert FirstBreak(s, 0) == i;
  }

  lemma SpaceIsBreak(t: string, key: string)
    requires !InQuote(t)
    ensures var rest := t + " " + key; IsBreak(rest, |t|) && rest[..|t|] == t && rest[|t|..] == " " + key
  {
    var rest := t + " " + key;
    AtTheSpace(t, key, rest);
    assert IsSpace(' ');
  }

  lemma AtTheSpace(t: string, key: string, rest: string)
    requires rest == t + " " + key
    ensures rest[..|t|] == t && |t| < |rest| && rest[|t|] == ' ' && rest[|t|..] == " " + key
  {
  }

  lemma TrimOneSpace(s: string)
    requires s != "" && !IsSpace(s[0])
    ensures TrimLeft(" " + s) == s
  {
    assert (" " + s)[1..] == s;
  }

  lemma PrintedNamespaces(ns: seq<string>)
    requires AreNamespaces(ns)
    ensures Namespaces(PrintNamespaces(ns)) == Ok(ns)
  {
    forall ms | AreNamespaces(ms) && PrintNamespaces(ns) == PrintNamespaces(ms) ensures ms == ns {
      PrintIsInjective(ms, ns);
    }
  }

  lemma PrintedIsNotKeyType(ns: seq<string>)
    ensures PrintNamespaces(ns) != "" && !IsKeyType(PrintNamespaces(ns)) && !IsSpace(PrintNamespaces(ns)[0])
  {
    assert PrintNamespaces(ns)[0] == 'n';
  }

  ghost function SignerOf(e: Entry, read: KeyReader): Signer
    requires IsEntry(e, read)
  {
    Signer(e.principals[0], read(e.key).value, e.namespaces)
  }

  /** Reading a printed entry gives the entry back. */
  lemma EntryRoundTrip(e: Entry, read: KeyReader)
    requires IsEntry(e, read)
    ensures SignerOfLine(PrintEntry(e), read) == Ok(SignerOf(e, read))
  {
    var who, rest := Join(e.principals, ','), PrintFields(e);
    JoinHasNoSpace(e.principals);
    SplitJoin(e.principals, ',');
    FieldsAreRead(e, read);
    FieldThenSpace(who, rest);
    FieldsGive(e, OptionsAndKey(rest), read);
    assert |who| < |who + " " + rest|;
  }

  lemma FieldsGive(e: Entry, fields: Result<(string, string)>, read: KeyReader)
    requires IsEntry(e, read) && fields == Ok((PrintOptions(e.namespaces), e.key))
    requires Namespaces(PrintOptions(e.namespaces)) == Ok(e.namespaces)
    ensures SignerOfFields(e.principals, fields, read) == Ok(SignerOf(e, read))
  {
  }

  lemma FieldsAreRead(e: Entry, read: KeyReader)
    requires IsEntry(e, read)
    ensures PrintFields(e) != "" && !IsSpace(PrintFields(e)[0])
    ensures OptionsAndKey(PrintFields(e)) == Ok((PrintOptions(e.namespaces), e.key))
    ensures Namespaces(PrintOptions(e.namespaces)) == Ok(e.namespaces)
  {
    if e.namespaces == [] {
      TokenStartsLikeAKey(e.key);
    } else {
      PrintedIsNotKeyType(e.namespaces);
      PrintedFirstToken(e.namespaces, PrintNamespaces(e.namespaces), e.key);
      PrintedNamespaces(e.namespaces);
    }
  }

  lemma FieldThenSpace(who: string, rest: string)
    requires forall i :: 0 <= i < |who| ==> !IsSpace(who[i])
    requires rest != "" && !IsSpace(rest[0])
    ensures var line := who + " " + rest;
      FirstSpace(line) == |who| && line[..|who|] == who && TrimLeft(line[|who|..]) == rest
  {
    var line := who + " " + rest;
    AtTheSpace(who, rest, line);
    TrimOneSpace(rest);
    FirstSpaceAt(line, |who|);
  }

  lemma FirstSpaceAt(line: string, i: nat)
    requires i < |line| && line[i] == ' ' && forall k :: 0 <= k < i ==> !IsSpace(line[..i][k])
    ensures FirstSpace(line) == i
  {
    assert forall k :: 0 <= k < i ==> line[k] == line[..i][k];
  }

  lemma EntryIsSignificant(e: Entry, read: KeyReader)
    requires IsEntry(e, read)
    ensures IsSignificant(PrintEntry(e)) && TrimSpace(PrintEntry(e)) == PrintEntry(e)
  {
    var who := Join(e.principals, ',');
    assert e.principals[0] in e.principals;
    JoinStart(e.principals);
    JoinHasNoSpace(e.principals);
    var line := PrintEntry(e);
    assert line[0] == who[0] && line[|line| - 1] == e.key[|e.key| - 1];
  }

  lemma {:induction false} JoinStart(parts: seq<string>)
    requires parts != [] && parts[0] != ""
    ensures Join(parts, ',') != "" && Join(parts, ',')[0] == parts[0][0]
  {
    if |parts| > 1 {
      JoinStart(parts[..|parts| - 1]);
    }
  }

  function PrintEntries(es: seq<Entry>): seq<string> {
    if es == [] then [] else PrintEntries(es[..|es| - 1]) + [PrintEntry(es[|es| - 1])]
  }

  ghost function SignersOf(es: seq<Entry>, read: KeyReader): seq<Signer>
    requires forall e :: e in es ==> IsEntry(e, read)
  {
    if es == [] then [] else SignersOf(es[..|es| - 1], read) + [SignerOf(es[|es| - 1], read)]
  }

  lemma {:induction false} LinesRoundTrip(es: seq<Entry>, read: KeyReader)
    requires forall e :: e in es ==> IsEntry(e, read)
    ensures SignersOfLines(PrintEntries(es), read) == Ok(SignersOf(es, read))
  {
    if es != [] {
      var front, e := es[..|es| - 1], es[|es| - 1];
      LinesRoundTrip(front, read);
      assert e in es;
      LastLine(PrintEntries(front), e, SignersOf(front, read), read);
    }
  }

  lemma LastLine(lines: seq<string>, e: Entry, signers: seq<Signer>, read: KeyReader)
    requires IsEntry(e, read) && SignersOfLines(lines, read) == Ok(signers)
    ensures SignersOfLines(lines + [PrintEntry(e)], read) == Ok(signers + [SignerOf(e, read)])
  {
    EntryRoundTrip(e, read);
    EntryIsSignificant(e, read);
    ThenLine(lines, PrintEntry(e), read);
  }

  lemma {:induction false} PrintedLines(es: seq<Entry>)
    requires forall e :: e in es ==> '\n' !in PrintEntry(e)
    ensures |PrintEntries(es)| == |es|
    ensures forall l :: l in PrintEntries(es) ==> '\n' !in l
  {
    if es != [] {
      PrintedLines(es[..|es| - 1]);
      assert es[|es| - 1] in es;
    }
  }

  /** A file of printed entries is read back entry by entry. */
  lemma FileRoundTrip(es: seq<Entry>, read: KeyReader)
    requires es != []
    requires forall e :: e in es ==> IsEntry(e, read)
    requires forall e :: e in es ==> '\n' !in PrintEntry(e)
    ensures SignersOfLines(Split(Join(PrintEntries(es), '\n'), '\n'), read) == Ok(SignersOf(es, read))
  {
    LinesRoundTrip(es, read);
    PrintedLines(es);
    SplitJoin(PrintEntries(es), '\n');
  }

  /** The line consists of principals, the options if there are any, and the key. */
  ghost predicate IsLineOf(line: string, principals: seq<string>, gap: string, options: string, space: string,
                           key: string)
  {
    && line == Join(principals, ',') + gap + (options + space + key)
    && principals != [] && (forall p :: p in principals ==> IsSupportedPattern(p))
    && gap != "" && IsGap(gap) && AreFields(options + space + key, options, space, key)
  }

  /** What the parts of a line say. */
  ghost predicate Says(principals: seq<string>, options: string, key: string, read: KeyReader, signer: Signer) {
    && principals != [] && signer.principal == principals[0] && read(key) == Ok(signer.key)
    && if options == "" then signer.namespaces == []
       else AreNamespaces(signer.namespaces) && options == PrintNamespaces(signer.namespaces)
  }

  /** Every line that is read consists of supported principals, printed namespaces if
      it has options, and a key, and the signer is what they say: nothing on the line
      is ignored. */
  lemma AcceptedLineIs(line: string, read: KeyReader)
    requires SignerOfLine(line, read).Ok?
    ensures exists principals, gap, options, space, key ::
      IsLineOf(line, principals, gap, options, space, key)
      && Says(principals, options, key, read, SignerOfLine(line, read).value)
  {
    var i := FirstSpace(line);
    var tail := line[i..];
    var rest := TrimLeft(tail);
    var principals := Split(line[..i], ',');
    FieldsSay(principals, OptionsAndKey(rest), read);
    var options, key := OptionsAndKey(rest).value.0, OptionsAndKey(rest).value.1;
    FieldsAreLossless(rest);
    var space :| AreFields(rest, options, space, key);
    var gap := GapOf(tail);
    WholeLine(line, i, gap, rest);
    JoinSplit(line[..i], ',');
    assert IsLineOf(line, principals, gap, options, space, key);
  }

  lemma FieldsSay(principals: seq<string>, fields: Result<(string, string)>, read: KeyReader)
    requires principals != [] && SignerOfFields(principals, fields, read).Ok?
    ensures fields.Ok? && (forall p :: p in principals ==> IsSupportedPattern(p))
    ensures Says(principals, fields.value.0, fields.value.1, read, SignerOfFields(principals, fields, read).value)
  {
  }

  lemma WholeLine(line: string, i: nat, gap: string, rest: string)
    requires i <= |line| && line[i..] == gap + rest
    ensures line == line[..i] + gap + rest
  {
    assert line == line[..i] + line[i..];
  }

  /** A signer is unrestricted only when its line carries no options. */
  lemma UnrestrictedHasNoOptions(line: string, read: KeyReader)
    ensures var signer := SignerOfLine(line, read);
      signer.Ok? && signer.value.namespaces == [] ==> OptionsAndKey(TrimLeft(line[FirstSpace(line)..])).value.0 == ""
  {
    var i := FirstSpace(line);
    if i < |line| {
      var principals, fields := Split(line[..i], ','), OptionsAndKey(TrimLeft(line[i..]));
      if SignerOfFields(principals, fields, read).Ok? {
        FieldsSay(principals, fields, read);
      }
    }
  }
}
