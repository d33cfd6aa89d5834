/** Pattern lists as OpenSSH matches them, section PATTERNS of ssh_config(5), and
    why comparing names is enough for the patterns that are accepted. */
module Patterns {
  import opened Text
  import opened AllowedSigners
  import opened SignersFile

  /** `*` stands for any characters, `?` for one. */
  predicate Matches(p: string, s: string)
    decreases |p| + |s|
  {
    if p == "" then s == ""
    else if p[0] == '*' then Matches(p[1..], s) || (s != "" && Matches(p, s[1..]))
    else s != "" && (p[0] == '?' || p[0] == s[0]) && Matches(p[1..], s[1..])
  }

  predicate IsNegated(p: string) {
    p != "" && p[0] == '!'
  }

  /** Some pattern of the list matches, and no negated one does. */
  predicate ListMatches(ps: seq<string>, s: string) {
    && (exists p :: p in ps && !IsNegated(p) && Matches(p, s))
    && forall p :: p in ps && IsNegated(p) ==> !Matches(p[1..], s)
  }

  lemma {:induction false} LiteralMatchesItself(p: string, s: string)
    requires '*' !in p && '?' !in p
    ensures Matches(p, s) <==> p == s
    decreases |p|
  {
    if p != "" && s != "" {
      assert p == [p[0]] + p[1..] && s == [s[0]] + s[1..];
      LiteralMatchesItself(p[1..], s[1..]);
    }
  }

  lemma {:induction false} StarMatchesAll(s: string)
    ensures Matches("*", s)
  {
    if s != "" {
      StarMatchesAll(s[1..]);
    }
  }

  lemma SpecialCharacters(c: char)
    ensures c in "*?!\"'" <==> c == '*' || c == '?' || c == '!' || c == '"' || c == '\''
  {
    var special := "*?!\"'";
    assert special[0] == '*' && special[1] == '?' && special[2] == '!' && special[3] == '"' && special[4] == '\'';
  }

  lemma NamesAreLiteral(p: string)
    ensures (forall c :: c in p ==> c !in "*?!\"'") <==>
      '*' !in p && '?' !in p && '!' !in p && '"' !in p && '\'' !in p
  {
    forall c ensures c in "*?!\"'" <==> c == '*' || c == '?' || c == '!' || c == '"' || c == '\'' {
      SpecialCharacters(c);
    }
  }

  /** What a supported pattern can be: the star alone, or a name that starts and ends
      with no white space and holds no character with a meaning of its own. */
  lemma SupportedIff(p: string)
    ensures IsSupportedPattern(p) <==>
      || p == "*"
      || (&& p != "" && !IsSpace(p[0]) && !IsSpace(p[|p| - 1])
          && '*' !in p && '?' !in p && '!' !in p && '"' !in p && '\'' !in p)
  {
    NamesAreLiteral(p);
  }

  /** Such a pattern matches everything, or itself and nothing else. */
  lemma SupportedMatches(p: string)
    requires IsSupportedPattern(p)
    ensures !IsNegated(p) && forall s :: Matches(p, s) <==> p == "*" || p == s
  {
    SupportedIff(p);
    forall s ensures Matches(p, s) <==> p == "*" || p == s {
      if p == "*" {
        StarMatchesAll(s);
      } else {
        LiteralMatchesItself(p, s);
      }
    }
  }

  /** On the lists that are accepted, looking for the name or the star decides what
      the pattern list decides. */
  lemma ListMatchesIff(ps: seq<string>, s: string)
    requires forall p :: p in ps ==> IsSupportedPattern(p)
    ensures ListMatches(ps, s) <==> s in ps || "*" in ps
  {
    forall p | p in ps ensures !IsNegated(p) && (Matches(p, s) <==> p == "*" || p == s) {
      SupportedMatches(p);
    }
  }

  /** The namespaces of a signer that was read from a line permit a namespace exactly
      when the line has no options or its pattern list matches. */
  lemma NamespacesPermit(line: string, read: KeyReader, namespace: string)
    requires SignerOfLine(line, read).Ok?
    ensures var ns := SignerOfLine(line, read).value.namespaces;
      ns == [] || namespace in ns || "*" in ns <==> ns == [] || ListMatches(ns, namespace)
  {
    var ns := SignerOfLine(line, read).value.namespaces;
    assert forall n :: n in ns ==> IsSupportedPattern(n);
    ListMatchesIff(ns, namespace);
  }

  /** A line with a principal, an option and a key. */
  lemma ExampleLine(read: KeyReader, key: string)
    requires read("ssh-ed25519 " + key).Ok? && key != "" && !IsSpace(key[|key| - 1])
    ensures SignerOfLine("alice" + " " + ("namespaces=\"git\"" + " " + ("ssh-ed25519 " + key)), read)
      == Ok(Signer("alice", read("ssh-ed25519 " + key).value, ["git"]))
  {
    var e := Entry(["alice"], ["git"], "ssh-ed25519 " + key);
    ExampleOption();
    ExampleIsEntry(e, read);
    EntryRoundTrip(e, read);
  }

  lemma ExampleIsEntry(e: Entry, read: KeyReader)
    requires e.principals == ["alice"] && e.namespaces == ["git"] && read(e.key).Ok?
    requires e.key != "" && !IsSpace(e.key[0]) && !IsSpace(e.key[|e.key| - 1])
    ensures IsEntry(e, read)
  {
    LettersAreSupported("alice");
    LettersAreSupported("git");
  }

  lemma ExampleOption()
    ensures PrintNamespaces(["git"]) == "namespaces=\"git\""
  {
  }

  lemma LettersAreSupported(p: string)
    requires p != "" && forall i :: 0 <= i < |p| ==> 'a' <= p[i] <= 'z'
    ensures IsSupportedPattern(p) && ',' !in p && '\\' !in p && forall i :: 0 <= i < |p| ==> !IsSpace(p[i])
  {
    assert forall i :: 0 <= i < |p| ==> !IsSpace(p[i]);
    OnlyLetters(p, '*');
    OnlyLetters(p, '?');
    OnlyLetters(p, '!');
    OnlyLetters(p, '"');
    OnlyLetters(p, '\'');
    OnlyLetters(p, ',');
    OnlyLetters(p, '\\');
    SupportedIff(p);
  }

  lemma OnlyLetters(p: string, c: char)
    requires (forall i :: 0 <= i < |p| ==> 'a' <= p[i] <= 'z') && !('a' <= c <= 'z')
    ensures c !in p
  {
  }
}
