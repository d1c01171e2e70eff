/** Request-ingress validation of a project's identity
    (app/models/project/project.go). The joined string `namespace-name` must
    match ^[A-Za-z]([A-Za-z0-9\-])*[A-Za-z0-9]$ and be at most 62 long. */
module Project {
  import opened Errors

  const ErrInvalidFormat: Error := Message("project name bad format")
  const ErrNameTooLong: Error := Message("project name too long")
  const MaxJoinedLength := 62

  /** The fields Bind reads; containers and timestamps are not consulted. */
  datatype Project = Project(name: string, namespace: string)

  function Joined(p: Project): string {
    p.namespace + "-" + p.name
  }

  predicate IsLetter(c: char) {
    'A' <= c <= 'Z' || 'a' <= c <= 'z'
  }

  predicate IsAlnum(c: char) {
    IsLetter(c) || '0' <= c <= '9'
  }

  predicate IsNameChar(c: char) {
    IsAlnum(c) || c == '-'
  }

  /** The language of the pattern, read declaratively: a letter, any run of
      name characters, and a final letter or digit. */
  predicate InLanguage(s: string) {
    && |s| >= 2
    && IsLetter(s[0])
    && IsAlnum(s[|s| - 1])
    && forall i :: 0 < i < |s| - 1 ==> IsNameChar(s[i])
  }

  // ---------------------------------------------------------------------------
  // The matcher: the pattern compiled to a deterministic automaton and run over
  // the whole input (the regexp is anchored at both ends).

  datatype State =
    | Start      // nothing read
    | Head       // the leading letter read
    | AlnumEnd   // two or more read, the last a letter or digit (accepting)
    | HyphenEnd  // two or more read, the last a hyphen
    | Dead       // no extension can match

  function Step(q: State, c: char): State {
    match q
    case Start => if IsLetter(c) then Head else Dead
    case Dead => Dead
    case _ => if IsAlnum(c) then AlnumEnd else if c == '-' then HyphenEnd else Dead
  }

  function Run(q: State, s: string): State
    decreases |s|
  {
    if s == [] then q else Run(Step(q, s[0]), s[1..])
  }

  /** projectName.MatchString(s) */
  predicate MatchString(s: string) {
    Run(Start, s) == AlnumEnd
  }

  /** Every prefix of an input is a legal start for the pattern. */
  predicate ValidPrefix(p: string) {
    |p| >= 1 && IsLetter(p[0]) && forall i :: 0 < i < |p| ==> IsNameChar(p[i])
  }

  /** The state the automaton is in after reading `p`, stated without running it. */
  function Classify(p: string): State {
    if p == [] then Start
    else if !ValidPrefix(p) then Dead
    else if |p| == 1 then Head
    else if IsAlnum(p[|p| - 1]) then AlnumEnd
    else HyphenEnd
  }

  lemma ClassifyStep(p: string, c: char)
    ensures Classify(p + [c]) == Step(Classify(p), c)
  {
    var q := p + [c];
    assert q[..|p|] == p;
    if p != [] && ValidPrefix(p) && IsNameChar(c) {
      assert ValidPrefix(q) by {
        forall i | 0 < i < |q| ensures IsNameChar(q[i]) {
          if i < |p| { assert q[i] == p[i]; }
        }
      }
    }
    if p != [] && !ValidPrefix(p) {
      if IsLetter(p[0]) {
        var i :| 0 < i < |p| && !IsNameChar(p[i]);
        assert q[i] == p[i];
      }
      assert !ValidPrefix(q);
    }
  }

  lemma {:induction false} RunFromClassify(p: string, s: string)
    ensures Run(Classify(p), s) == Classify(p + s)
    decreases |s|
  {
    if s == [] {
      assert p + s == p;
    } else {
      ClassifyStep(p, s[0]);
      RunFromClassify(p + [s[0]], s[1..]);
      assert p + [s[0]] + s[1..] == p + s;
    }
  }

  /** The automaton accepts exactly the pattern's language. */
  lemma MatchStringIff(s: string)
    ensures MatchString(s) <==> InLanguage(s)
  {
    RunFromClassify([], s);
    assert [] + s == s;
    if InLanguage(s) {
      assert ValidPrefix(s) by {
        forall i | 0 < i < |s| ensures IsNameChar(s[i]) {
          if i == |s| - 1 { assert IsAlnum(s[i]); }
        }
      }
    }
  }

  // ---------------------------------------------------------------------------

  /** Project.Bind: the format check first, then the length check. The result
      is the error Bind returns, None for nil; Bind writes nothing. */
  function Bind(p: Project): (r: Option<Error>)
    ensures r == None <==> InLanguage(Joined(p)) && |p.namespace| + |p.name| + 1 <= MaxJoinedLength
    ensures r == Some(ErrInvalidFormat) <==> !InLanguage(Joined(p))
    ensures r == Some(ErrNameTooLong) <==> InLanguage(Joined(p)) && |p.namespace| + |p.name| + 1 > MaxJoinedLength
  {
    MatchStringIff(Joined(p));
    if !MatchString(Joined(p)) then Some(ErrInvalidFormat)
    else if |p.namespace| + |p.name| + 1 > MaxJoinedLength then Some(ErrNameTooLong)
    else None
  }

  /** An accepted identity starts with a letter, ends with a letter or digit,
      uses only letters, digits and hyphens, and is 2 to 62 characters long. */
  lemma AcceptedShape(p: Project)
    requires Bind(p) == None
    ensures var s := Joined(p);
      && 2 <= |s| <= MaxJoinedLength
      && IsLetter(s[0])
      && IsAlnum(s[|s| - 1])
      && forall i :: 0 <= i < |s| ==> IsNameChar(s[i])
  {
    var s := Joined(p);
    forall i | 0 <= i < |s| ensures IsNameChar(s[i]) {
      if i == |s| - 1 { assert IsAlnum(s[i]); }
    }
  }

  /** An empty namespace or name leaves a hyphen at an end: always a format error. */
  lemma EmptyPartRejected(p: Project)
    requires p.namespace == "" || p.name == ""
    ensures Bind(p) == Some(ErrInvalidFormat)
  {
    var s := Joined(p);
    if p.namespace == "" {
      assert s[0] == '-';
    } else {
      assert s[|s| - 1] == '-';
    }
  }

  /** The format check comes first: an identity the regular expression
      rejects is reported as badly formatted even when it is also too long,
      never as too long. */
  lemma FormatCheckedBeforeLength(p: Project)
    requires |p.namespace| + |p.name| + 1 > MaxJoinedLength
    requires !MatchString(Joined(p))
    ensures Bind(p) == Some(ErrInvalidFormat)
    ensures Bind(p) != Some(ErrNameTooLong)
  {
    MatchStringIff(Joined(p));
  }

  /** A name holding any character outside letters, digits and "-" is
      rejected as badly formatted, whatever its length. */
  lemma BadNameCharRejected(p: Project)
    requires exists i :: 0 <= i < |p.name| && !IsNameChar(p.name[i])
    ensures Bind(p) == Some(ErrInvalidFormat)
  {
    var i :| 0 <= i < |p.name| && !IsNameChar(p.name[i]);
    var s := Joined(p);
    var k := |p.namespace| + 1 + i;
    assert s[k] == p.name[i];
    assert !IsLetter(s[k]) && !IsAlnum(s[k]);
  }

  /** The length bound is inclusive: a well-formed joined identity of 62
      characters is accepted and one of 63 is rejected as too long. */
  lemma LengthBoundary(p: Project)
    requires InLanguage(Joined(p))
    ensures |Joined(p)| == 62 ==> Bind(p) == None
    ensures |Joined(p)| == 63 ==> Bind(p) == Some(ErrNameTooLong)
  {
  }

  /** A concrete identity from the documentation is accepted. */
  lemma AcmeWebAccepted()
    ensures Bind(Project("web", "acme")) == None
  {
    var s := Joined(Project("web", "acme"));
    assert s == "acme-web";
    assert forall i :: 0 < i < |s| - 1 ==> IsNameChar(s[i]);
  }
}
