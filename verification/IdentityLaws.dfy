/** What the identity strings are, by laws: audience, issuer, audiences of the claim, alias, identity ID. */
module IdentityLaws {
  import opened Wrappers
  import opened Text
  import opened Naming
  import opened NameShape
  import opened Identity

  // ---- Audience and issuer -------------------------------------------------------------------------

  /** An audience loses the white space around it; a blank one stands for the service's own. */
  lemma AudienceIsTrimmed(a: string, t: string, b: string)
    requires Only(a, WHITE_SPACE) && Only(b, WHITE_SPACE)
    requires t != "" ==> t[0] !in WHITE_SPACE && t[|t| - 1] !in WHITE_SPACE
    ensures ResolveControlPlaneAudience(a + t + b)
            == if t == "" then "open-control-plane-platform-service-openbao" else t
  {
    hide Trim;
    TrimPadded(a, t, b, WHITE_SPACE);
  }

  /** The first endpoint of the name, whatever comes after it, gives its URL without the slashes at the end. */
  lemma IssuerOfFirst(before: seq<Endpoint>, url: string, after: seq<Endpoint>) returns (slashes: string)
    requires forall e | e in before :: e.name != "service-account-issuer"
    ensures var issuer := ControlPlaneIssuer(before + [Endpoint("service-account-issuer", url)] + after);
            && url == issuer + slashes && Only(slashes, {'/'})
            && (issuer != "" ==> issuer[|issuer| - 1] != '/')
  {
    var all := before + [Endpoint("service-account-issuer", url)] + after;
    SkipsOthers(before, [Endpoint("service-account-issuer", url)] + after);
    assert all == before + ([Endpoint("service-account-issuer", url)] + after);
    slashes := TrimRightCuts(url, {'/'});
  }

  lemma {:induction false} SkipsOthers(before: seq<Endpoint>, rest: seq<Endpoint>)
    requires forall e | e in before :: e.name != "service-account-issuer"
    ensures ControlPlaneIssuer(before + rest) == ControlPlaneIssuer(rest)
  {
    if before == [] {
      assert before + rest == rest;
    } else {
      assert before[0] in before && (before + rest)[1..] == before[1..] + rest;
      SkipsOthers(before[1..], rest);
    }
  }

  lemma NoEndpointNoIssuer(endpoints: seq<Endpoint>)
    requires forall e | e in endpoints :: e.name != "service-account-issuer"
    ensures ControlPlaneIssuer(endpoints) == ""
  {
    SkipsOthers(endpoints, []);
    assert endpoints + [] == endpoints;
  }

  // ---- The audiences of the claim ---------------------------------------------------------------------

  /** Item by item: a non-empty text stays, anything else is left out, and the order is kept. */
  lemma {:induction false} TextsInOrder(a: seq<RawItem>, b: seq<RawItem>)
    ensures Texts(a + b) == Texts(a) + Texts(b)
    decreases b
  {
    if b == [] {
      assert a + b == a;
    } else {
      var front := b[..|b| - 1];
      assert (a + b)[..|a + b| - 1] == a + front;
      TextsInOrder(a, front);
    }
  }

  lemma OneText(item: RawItem)
    ensures Texts([item]) == if item.ItemText? && item.text != "" then [item.text] else []
  {
    assert [item][..0] == [];
  }

  lemma ClaimForms(items: seq<RawItem>, text: string)
    ensures NormalizedAudiences(RawList(items)) == Texts(items)
    ensures NormalizedAudiences(RawText(text)) == Texts([ItemText(text)])
    ensures NormalizedAudiences(RawOther) == Texts([ItemOther]) == []
  {
    OneText(ItemText(text));
    OneText(ItemOther);
  }

  // ---- Alias ---------------------------------------------------------------------------------------------

  lemma SixParts(a: string, b: string, c: string, d: string, e: string, f: string)
    ensures Join([a, b, c, d, e, f], ":") == a + ":" + b + ":" + c + ":" + d + ":" + e + ":" + f
  {
    assert [a, b, c, d, e, f][1..] == [b, c, d, e, f] && [b, c, d, e, f][1..] == [c, d, e, f];
    assert [c, d, e, f][1..] == [d, e, f] && [d, e, f][1..] == [e, f] && [e, f][1..] == [f];
    JoinTwo(e, f);
    assert Join([d, e, f], ":") == d + ":" + Join([e, f], ":");
    assert Join([c, d, e, f], ":") == c + ":" + Join([d, e, f], ":");
    assert Join([b, c, d, e, f], ":") == b + ":" + Join([c, d, e, f], ":");
  }

  lemma JoinTwo(e: string, f: string)
    ensures Join([e, f], ":") == e + ":" + f
  {
    assert [e, f][1..] == [f];
  }

  /** In a workspace namespace: the mark, project, workspace, control plane, account namespace, account name. */
  lemma AliasInWorkspace(project: string, workspace: string, cpName: string, saNamespace: string, saName: string)
    requires project != "" && Alphanumeric(project[0]) && ProjectCuttable(project)
    ensures ControlPlaneEntityAlias("project-" + project + "--ws-" + workspace, cpName, saNamespace, saName)
            == "ocp" + ":" + project + ":" + workspace + ":" + cpName + ":" + saNamespace + ":" + saName
  {
    hide ProjectWorkspaceFromNamespace, Join;
    CutRecovers(project, workspace);
    SixParts("ocp", project, workspace, cpName, saNamespace, saName);
  }

  /** In a namespace without the marker: the whole namespace for the project, and an empty workspace. */
  lemma AliasElsewhere(namespace: string, cpName: string, saNamespace: string, saName: string)
    requires !Contains(namespace, "--ws-")
    ensures ControlPlaneEntityAlias(namespace, cpName, saNamespace, saName)
            == "ocp" + ":" + namespace + ":" + "" + ":" + cpName + ":" + saNamespace + ":" + saName
  {
    hide Join, Contains;
    SixParts("ocp", namespace, "", cpName, saNamespace, saName);
  }

  /** With the marker but without the project prefix: what is before the first marker, and what is after it. */
  lemma AliasUnprefixed(a: string, b: string, cpName: string, saNamespace: string, saName: string)
    requires forall j: nat | j < |a| :: !OccursAt(a + "--ws-" + b, "--ws-", j)
    requires !("project-" <= a)
    ensures ControlPlaneEntityAlias(a + "--ws-" + b, cpName, saNamespace, saName)
            == "ocp" + ":" + a + ":" + b + ":" + cpName + ":" + saNamespace + ":" + saName
  {
    hide Join;
    CutAtFirst(a, b);
    SixParts("ocp", a, b, cpName, saNamespace, saName);
  }

  lemma CutAtFirst(a: string, b: string)
    requires forall j: nat | j < |a| :: !OccursAt(a + "--ws-" + b, "--ws-", j)
    ensures Cut(a + "--ws-" + b, "--ws-") == (a, b, true)
  {
    var s := a + "--ws-" + b;
    assert s[|a|..|a| + 5] == "--ws-";
    assert OccursAt(s, "--ws-", |a|);
    var cut := Cut(s, "--ws-");
    assert OccursAt(s, "--ws-", |cut.0|) by {
      assert s[|cut.0|..|cut.0| + 5] == "--ws-";
    }
    assert |cut.0| == |a|;
    assert cut.0 == s[..|a|] == a && cut.1 == s[|a| + 5..] == b;
  }

  // ---- Identity ID -------------------------------------------------------------------------------------------

  const NUL := 0 as char

  /** No part holds the separator it is followed by, and no audience is empty. */
  predicate Separable(id: ServiceAccountIdentity) {
    && NUL !in id.alias && NUL !in id.issuer && NUL !in id.subject
    && forall a | a in id.audiences :: a != "" && ',' !in a
  }

  predicate SameIdentity(a: ServiceAccountIdentity, b: ServiceAccountIdentity) {
    a.alias == b.alias && a.issuer == b.issuer && a.subject == b.subject
      && multiset(a.audiences) == multiset(b.audiences)
  }

  lemma {:induction false} JoinedListsAgree(xs: seq<string>, ys: seq<string>)
    requires forall x | x in xs :: x != "" && ',' !in x
    requires forall y | y in ys :: y != "" && ',' !in y
    requires Join(xs, ",") == Join(ys, ",")
    ensures xs == ys
    decreases xs
  {
    JoinShape(xs);
    JoinShape(ys);
    if |xs| > 1 && |ys| > 1 {
      assert xs[0] in xs && ys[0] in ys;
      SplitAtFirst(xs[0], Join(xs[1..], ","), ys[0], Join(ys[1..], ","), ',');
      assert forall x | x in xs[1..] :: x in xs;
      assert forall y | y in ys[1..] :: y in ys;
      JoinedListsAgree(xs[1..], ys[1..]);
      assert xs == [xs[0]] + xs[1..] && ys == [ys[0]] + ys[1..];
    }
  }

  /** How many parts a joined list has shows: none, one, or more. */
  lemma JoinShape(xs: seq<string>)
    requires forall x | x in xs :: x != "" && ',' !in x
    ensures Join(xs, ",") == "" <==> xs == []
    ensures ',' in Join(xs, ",") <==> |xs| > 1
    ensures |xs| == 1 ==> Join(xs, ",") == xs[0]
  {
    if |xs| > 1 {
      assert xs[0] in xs;
      assert Join(xs, ",")[|xs[0]|] == ',';
    } else if |xs| == 1 {
      assert xs[0] in xs;
    }
  }

  /**
   Identities that differ in alias, issuer, subject or audiences, other than in their order, are hashed from
   different texts.
   */
  lemma IdentityTextInjective(a: ServiceAccountIdentity, b: ServiceAccountIdentity)
    requires Separable(a) && Separable(b)
    ensures IdentityText(a) == IdentityText(b) <==> SameIdentity(a, b)
  {
    SortedSpec(a.audiences);
    SortedSpec(b.audiences);
    var x, y := Join(Sorted(a.audiences), ","), Join(Sorted(b.audiences), ",");
    if IdentityText(a) == IdentityText(b) {
      PartsAgree(a, b, x, y);
      SortedElements(a.audiences);
      SortedElements(b.audiences);
      JoinedListsAgree(Sorted(a.audiences), Sorted(b.audiences));
    }
    if SameIdentity(a, b) {
      AscendingUnique(Sorted(a.audiences), Sorted(b.audiences));
    }
  }

  lemma SortedElements(s: seq<string>)
    ensures forall x | x in Sorted(s) :: x in s
  {
    SortedSpec(s);
    forall x | x in Sorted(s) ensures x in s {
      assert x in multiset(Sorted(s));
    }
  }

  lemma PartsAgree(a: ServiceAccountIdentity, b: ServiceAccountIdentity, x: string, y: string)
    requires Separable(a) && Separable(b)
    requires a.alias + [NUL] + a.issuer + [NUL] + a.subject + [NUL] + x
          == b.alias + [NUL] + b.issuer + [NUL] + b.subject + [NUL] + y
    ensures a.alias == b.alias && a.issuer == b.issuer && a.subject == b.subject && x == y
  {
    var p, q := a.subject + [NUL] + x, b.subject + [NUL] + y;
    var r, t := a.issuer + [NUL] + p, b.issuer + [NUL] + q;
    assert a.alias + [NUL] + a.issuer + [NUL] + a.subject + [NUL] + x == a.alias + [NUL] + r;
    assert b.alias + [NUL] + b.issuer + [NUL] + b.subject + [NUL] + y == b.alias + [NUL] + t;
    SplitAtFirst(a.alias, r, b.alias, t, NUL);
    SplitAtFirst(a.issuer, p, b.issuer, q, NUL);
    SplitAtFirst(a.subject, x, b.subject, y, NUL);
  }

  /** The sixteen digits tell the two texts apart. */
  ghost predicate DigitsDiffer(sha: Digest, x: string, y: string) {
    x != y ==> HexEncode(sha(x))[..16] != HexEncode(sha(y))[..16]
  }

  /** So for a hash without collision on them the IDs are equal exactly when the identities are. */
  lemma IdentityIDInjective(sha: Digest, a: ServiceAccountIdentity, b: ServiceAccountIdentity)
    requires Separable(a) && Separable(b) && DigitsDiffer(sha, IdentityText(a), IdentityText(b))
    ensures IdentityID(sha, Some(a)) == IdentityID(sha, Some(b)) <==> SameIdentity(a, b)
  {
    hide IdentityText, SameIdentity;
    IdentityTextInjective(a, b);
  }

  /** With a comma in an audience it fails: one audience and the two it reads as share an ID. */
  lemma CommaMeetsComma(sha: Digest, alias: string, subject: string, issuer: string)
    ensures IdentityID(sha, Some(ServiceAccountIdentity(alias, subject, issuer, ["a,b"])))
            == IdentityID(sha, Some(ServiceAccountIdentity(alias, subject, issuer, ["a", "b"])))
  {
    assert ["a", "b"][1..] == ["b"] && ["b"][1..] == [] && ["a,b"][1..] == [];
    assert Sorted(["b"]) == ["b"] && Before("a", "b");
    assert Sorted(["a", "b"]) == ["a", "b"] && Sorted(["a,b"]) == ["a,b"];
    assert Join(["a", "b"], ",") == "a" + "," + "b" == "a,b";
  }

  /** The ID is made of the first eight bytes of the digest of the text, two digits each, the high one first. */
  lemma IDIsDigest(sha: Digest, id: ServiceAccountIdentity, i: nat)
    requires i < 8
    ensures var r := IdentityID(sha, Some(id));
            && |r| == 16 && IsHex(r)
            && 16 * HexValue(r[2 * i]) + HexValue(r[2 * i + 1]) == sha(IdentityText(id))[i] as int
  {
    HexRoundTrip(sha(IdentityText(id)), i);
  }
}
