/** `createOrganization` of lib/actions/organization.ts and its slug defaulting. */
module OrganizationActions {
  import opened Wrappers
  import opened Ascii
  import opened Validators
  import opened Gateway

  datatype CreateOrganizationInput = CreateOrganizationInput(name: string, slug: Option<string>)

  /** `.replace(/\s+/g, "-")`: every maximal run of whitespace becomes one hyphen. */
  function ReplaceSpaceRuns(s: string): (r: string)
    ensures NoSpace(r)
    ensures |r| <= |s|
    ensures r == [] <==> s == []
    decreases |s|
  {
    if s == [] then []
    else if IsSpace(s[0]) then "-" + ReplaceSpaceRuns(DropSpaces(s))
    else [s[0]] + ReplaceSpaceRuns(s[1..])
  }

  /** Every character of the hyphenated text is a hyphen or a character of the input. */
  lemma {:induction false} ReplaceSpaceRunsChars(s: string)
    ensures forall i :: 0 <= i < |ReplaceSpaceRuns(s)| ==> ReplaceSpaceRuns(s)[i] == '-' || ReplaceSpaceRuns(s)[i] in s
    decreases |s|
  {
    if s != [] {
      if IsSpace(s[0]) {
        var d := DropSpaces(s);
        ReplaceSpaceRunsChars(d);
        forall i | 0 <= i < |d| ensures d[i] in s { assert d[i] == s[|s| - |d| + i]; }
      } else {
        ReplaceSpaceRunsChars(s[1..]);
        forall i | 0 <= i < |s| - 1 ensures s[1..][i] in s { assert s[1..][i] == s[i + 1]; }
      }
    }
  }

  /** The slug used when none is given: the name lower-cased, whitespace runs hyphenated. */
  function DeriveSlug(name: string): (slug: string)
    ensures NoSpace(slug)
    ensures |slug| <= |name|
    ensures slug == [] <==> name == []
  {
    ReplaceSpaceRuns(Lower(name))
  }

  /** `input.slug || <derived>`: an absent or empty slug is replaced. */
  function SlugSent(input: CreateOrganizationInput): (slug: string)
    ensures input.slug.Some? && input.slug.value != "" ==> slug == input.slug.value
    ensures slug == "" <==> (input.slug.None? || input.slug == Some("")) && input.name == ""
  {
    if input.slug.Some? && input.slug.value != "" then input.slug.value else DeriveSlug(input.name)
  }

  const CreateOrganizationFailed := "Failed to create organization"

  /** `createOrganization`: session gate, one create request, then shaping of the reply.
      `session` is the session lookup's answer, `reply` the create call's
      (`Returns(None)` is `null`). Every exception ends as a failure value. */
  function CreateOrganization(input: CreateOrganizationInput, session: SessionAnswer,
                              reply: Answer<Option<Organization>>): (run: Run<Organization>)
    ensures !SignedIn(session) ==> run.calls == [GetSessionCall] && run.result.Failure?
    ensures session.Returns? && !SignedIn(session) ==> run.result == Failure(AuthRequired)
    ensures SignedIn(session) ==> run.calls == [GetSessionCall, CreateOrganizationCall(input.name, SlugSent(input))]
    ensures SignedIn(session) && input.slug.Some? && input.slug.value != "" ==>
      run.calls[1].slug == input.slug.value
    ensures SignedIn(session) && (input.slug.None? || input.slug == Some("")) ==>
      run.calls[1].slug == DeriveSlug(input.name) && NoSpace(run.calls[1].slug)
    ensures run.result.Success? <==>
      SignedIn(session) && reply.Returns? && reply.value.Some? && reply.value.value.id != ""
    ensures run.result.Success? ==> run.result.data == reply.value.value
    ensures SignedIn(session) && reply.Returns? && !run.result.Success? ==>
      run.result == Failure(CreateOrganizationFailed)
    ensures SignedIn(session) && reply.Throws? ==>
      run.result == Failure(CaughtMessage(reply.thrown, CreateOrganizationFailed))
  {
    match session
    case Throws(t) => Run(Failure(CaughtMessage(t, CreateOrganizationFailed)), [GetSessionCall])
    case Returns(info) =>
      if info.None? || !info.value.active then
        Run(Failure(AuthRequired), [GetSessionCall])
      else
        var calls := [GetSessionCall, CreateOrganizationCall(input.name, SlugSent(input))];
        match reply
        case Throws(t) => Run(Failure(CaughtMessage(t, CreateOrganizationFailed)), calls)
        case Returns(org) =>
          if org.None? || org.value.id == "" then
            // `throw new Error("Failed to create organization")`, caught below it
            Run(Failure(CaughtMessage(Error(CreateOrganizationFailed), CreateOrganizationFailed)), calls)
          else
            Run(Success(org.value), calls)
  }

  /** On text without whitespace, hyphenation changes nothing. */
  lemma {:induction false} ReplaceSpaceRunsIdentity(s: string)
    requires NoSpace(s)
    ensures ReplaceSpaceRuns(s) == s
    decreases |s|
  {
    if s != [] {
      assert !IsSpace(s[0]);
      ReplaceSpaceRunsIdentity(s[1..]);
    }
  }

  lemma LowerIdentity(s: string)
    requires forall i :: 0 <= i < |s| ==> !IsUpper(s[i])
    ensures Lower(s) == s
  {
  }

  /** A derived slug contains no whitespace and no upper-case letter, and deriving
      again from it gives it back. */
  lemma DeriveSlugIdempotent(name: string)
    ensures NoSpace(DeriveSlug(name))
    ensures forall i :: 0 <= i < |DeriveSlug(name)| ==> !IsUpper(DeriveSlug(name)[i])
    ensures DeriveSlug(DeriveSlug(name)) == DeriveSlug(name)
  {
    var slug := DeriveSlug(name);
    var low := Lower(name);
    ReplaceSpaceRunsChars(low);
    forall i | 0 <= i < |slug|
      ensures !IsUpper(slug[i])
    {
      if slug[i] != '-' {
        assert slug[i] in low;
        var k :| 0 <= k < |low| && low[k] == slug[i];
        assert low[k] == ToLower(name[k]);
      }
    }
    LowerIdentity(slug);
    ReplaceSpaceRunsIdentity(slug);
  }

  /** A name without whitespace gives its lower-case form. */
  lemma DeriveSlugWithoutSpaces(name: string)
    requires NoSpace(name)
    ensures DeriveSlug(name) == Lower(name)
  {
    var low := Lower(name);
    forall i | 0 <= i < |low|
      ensures !IsSpace(low[i])
    {
      assert low[i] == ToLower(name[i]);
    }
    ReplaceSpaceRunsIdentity(low);
  }

  /** A whole whitespace run, however long, becomes a single hyphen. */
  lemma RunCollapses(sp: string, t: string)
    requires sp != [] && AllSpace(sp)
    requires t == [] || !IsSpace(t[0])
    ensures ReplaceSpaceRuns(sp + t) == "-" + ReplaceSpaceRuns(t)
  {
    assert (sp + t)[0] == sp[0];
    DropSpacesRun(sp, t);
  }

  /** Two whitespace-free words separated by a whitespace run of any width are
      joined by one hyphen. */
  lemma DeriveSlugTwoWords(name: string, a: string, gap: string, b: string)
    requires NoSpace(a) && NoSpace(b) && b != []
    requires gap != [] && AllSpace(gap)
    requires Lower(name) == a + (gap + b)
    ensures DeriveSlug(name) == a + "-" + b
  {
    ReplaceSpaceRunsPrefix(a, gap + b);
    RunCollapses(gap, b);
    ReplaceSpaceRunsIdentity(b);
    assert a + ("-" + b) == a + "-" + b;
  }

  /** The worked example: "Acme Construction" gives "acme-construction". */
  lemma AcmeExample(name: string)
    requires name == "Acme Construction"
    ensures DeriveSlug(name) == "acme-construction"
  {
    AcmeWordsHaveNoSpace();
    AcmeLower(name);
    DeriveSlugTwoWords(name, "acme", [' '], "construction");
  }

  lemma AcmeWordsHaveNoSpace()
    ensures NoSpace("acme") && NoSpace("construction")
  {
    forall i | 0 <= i < 4 ensures !IsSpace("acme"[i]) { }
    forall i | 0 <= i < 12 ensures !IsSpace("construction"[i]) { }
  }

  lemma AcmeLower(name: string)
    requires name == "Acme Construction"
    ensures Lower(name) == "acme" + ([' '] + "construction")
  {
    var low := Lower(name);
    forall i | 0 <= i < 17
      ensures low[i] == "acme construction"[i]
    {
      assert low[i] == ToLower(name[i]);
    }
  }

  /** Hyphenation steps over a whitespace-free prefix unchanged. */
  lemma {:induction false} ReplaceSpaceRunsPrefix(w: string, rest: string)
    requires NoSpace(w)
    ensures ReplaceSpaceRuns(w + rest) == w + ReplaceSpaceRuns(rest)
    decreases |w|
  {
    if w == [] {
      assert w + rest == rest;
    } else {
      NoSpaceTail(w);
      ConsAppend(w, rest);
      ReplaceSpaceRunsKeeps(w + rest);
      ReplaceSpaceRunsPrefix(w[1..], rest);
      ConsAppend(w, ReplaceSpaceRuns(rest));
    }
  }

  lemma ConsAppend(w: string, t: string)
    requires w != []
    ensures (w + t)[0] == w[0] && (w + t)[1..] == w[1..] + t
    ensures [w[0]] + (w[1..] + t) == w + t
  {
    assert [w[0]] + w[1..] == w;
  }

  lemma ReplaceSpaceRunsKeeps(s: string)
    requires s != [] && !IsSpace(s[0])
    ensures ReplaceSpaceRuns(s) == [s[0]] + ReplaceSpaceRuns(s[1..])
  {
  }

  lemma NoSpaceTail(w: string)
    requires NoSpace(w) && w != []
    ensures !IsSpace(w[0]) && NoSpace(w[1..])
  {
    forall i | 0 <= i < |w| - 1 ensures !IsSpace(w[1..][i]) { assert w[1..][i] == w[i + 1]; }
  }

  /** For a valid organization name without underscores the derived slug only uses
      slug characters. (An underscore survives derivation and is not a slug character.) */
  lemma DerivedSlugCharset(name: string)
    requires ValidName(name)
    requires '_' !in name
    ensures forall i :: 0 <= i < |DeriveSlug(name)| ==> IsSlugChar(DeriveSlug(name)[i])
  {
    var slug := DeriveSlug(name);
    var low := Lower(name);
    ReplaceSpaceRunsChars(low);
    forall i | 0 <= i < |slug|
      ensures IsSlugChar(slug[i])
    {
      if slug[i] != '-' {
        var k :| 0 <= k < |low| && low[k] == slug[i];
        assert low[k] == ToLower(name[k]);
        assert IsNameChar(name[k]);
        assert !IsSpace(slug[i]);
        assert name[k] != '_';
      }
    }
  }
}
