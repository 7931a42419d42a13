/**
 Identity strings of a ControlPlane ServiceAccount (internal/controller/controlplane_access.go):
 the audience default, the issuer, the alias, and the identity ID. Token minting and decoding are
 not part of this model; the resolved claims (sections 4.1.1 to 4.1.3 of RFC 7519) are inputs.
 */
module Identity {
  import opened Wrappers
  import opened Text
  import opened Naming

  datatype ServiceAccountIdentity =
    ServiceAccountIdentity(alias: string, subject: string, issuer: string, audiences: seq<string>)

  // ---- Audience ---------------------------------------------------------------------------

  const CONTROL_PLANE_JWT_AUDIENCE := "open-control-plane-platform-service-openbao"

  function ResolveControlPlaneAudience(audience: string): string {
    if TrimSpace(audience) != "" then TrimSpace(audience) else CONTROL_PLANE_JWT_AUDIENCE
  }

  /**
   The trust resolves its audience before storing it and the entity resolves the stored one again
   before it asks for a token: the second resolution changes nothing, and no audience is blank.
   */
  lemma AudienceResolvesOnce(audience: string)
    ensures var r := ResolveControlPlaneAudience(audience);
            r != "" && ResolveControlPlaneAudience(r) == r
  {
    var r := ResolveControlPlaneAudience(audience);
    assert r[0] !in WHITE_SPACE && r[|r| - 1] !in WHITE_SPACE;
  }

  /** The aud claim as JSON gives it: a text, a list that may hold other things, or neither. */
  datatype RawItem = ItemText(text: string) | ItemOther
  datatype RawAudience = RawText(text: string) | RawList(items: seq<RawItem>) | RawOther

  function Texts(items: seq<RawItem>): seq<string> {
    if items == [] then []
    else
      var last := items[|items| - 1];
      Texts(items[..|items| - 1]) + if last.ItemText? && last.text != "" then [last.text] else []
  }

  function NormalizedAudiences(raw: RawAudience): seq<string> {
    match raw
    case RawText(text) => if text == "" then [] else [text]
    case RawList(items) => Texts(items)
    case RawOther => []
  }

  method NormalizeAudiences(raw: RawAudience) returns (out: seq<string>)
    ensures out == NormalizedAudiences(raw)
    ensures forall s :: s in out <==> s != "" && (raw == RawText(s) || (raw.RawList? && ItemText(s) in raw.items))
  {
    out := [];
    match raw {
      case RawText(text) =>
        if text != "" {
          out := [text];
        }
      case RawList(items) =>
        for i := 0 to |items|
          invariant out == Texts(items[..i])
          invariant forall s :: s in out <==> s != "" && ItemText(s) in items[..i]
        {
          assert items[..i + 1][..i] == items[..i];
          if items[i].ItemText? && items[i].text != "" {
            out := out + [items[i].text];
          }
        }
        assert items[..|items|] == items;
      case RawOther =>
    }
  }

  // ---- Issuer -----------------------------------------------------------------------------

  datatype Endpoint = Endpoint(name: string, url: string)

  const ISSUER_ENDPOINT := "service-account-issuer"

  function ControlPlaneIssuer(endpoints: seq<Endpoint>): string {
    if endpoints == [] then ""
    else if endpoints[0].name == ISSUER_ENDPOINT then TrimRight(endpoints[0].url, {'/'})
    else ControlPlaneIssuer(endpoints[1..])
  }

  predicate IsIssuerOf(endpoints: seq<Endpoint>, issuer: string) {
    exists i | 0 <= i < |endpoints| ::
      && endpoints[i].name == ISSUER_ENDPOINT && issuer <= endpoints[i].url
      && (forall j | 0 <= j < i :: endpoints[j].name != ISSUER_ENDPOINT)
  }

  /** Only the first endpoint of that name counts, even when its URL is empty. */
  method FindControlPlaneIssuer(endpoints: seq<Endpoint>) returns (issuer: string)
    ensures issuer == ControlPlaneIssuer(endpoints)
    ensures issuer != "" ==> issuer[|issuer| - 1] != '/'
    ensures issuer != "" ==> IsIssuerOf(endpoints, issuer)
  {
    for i := 0 to |endpoints|
      invariant ControlPlaneIssuer(endpoints) == ControlPlaneIssuer(endpoints[i..])
      invariant forall j :: 0 <= j < i ==> endpoints[j].name != ISSUER_ENDPOINT
    {
      assert endpoints[i..][0] == endpoints[i];
      if endpoints[i].name == ISSUER_ENDPOINT {
        return TrimRight(endpoints[i].url, {'/'});
      }
      assert endpoints[i..][1..] == endpoints[i + 1..];
    }
    return "";
  }

  // ---- Alias ------------------------------------------------------------------------------

  const PROJECT_PREFIX := "project-"
  const WORKSPACE_CUT := "--ws-"

  function ProjectWorkspaceFromNamespace(namespace: string): (string, string) {
    var cut := Cut(namespace, WORKSPACE_CUT);
    if !cut.2 then (namespace, "") else (TrimPrefix(cut.0, PROJECT_PREFIX), cut.1)
  }

  function ControlPlaneEntityAlias(cpNamespace: string, cpName: string, saNamespace: string, saName: string): string {
    var pw := ProjectWorkspaceFromNamespace(cpNamespace);
    Join(["ocp", pw.0, pw.1, cpName, saNamespace, saName], ":")
  }

  function WorkspaceNamespace(project: string, workspace: string): string {
    PROJECT_PREFIX + project + WORKSPACE_CUT + workspace
  }

  predicate Alphanumeric(c: char) {
    'a' <= c <= 'z' || '0' <= c <= '9'
  }

  /** What a project name must avoid: the marker inside it, or most of the marker at its end. */
  predicate ProjectCuttable(project: string) {
    !Contains(project, WORKSPACE_CUT) && !(|project| >= 4 && project[|project| - 4..] == "--ws")
  }

  lemma MarkerAt(s: string, i: nat)
    ensures OccursAt(s, WORKSPACE_CUT, i) <==>
            i + 5 <= |s| && s[i] == '-' && s[i + 1] == '-' && s[i + 2] == 'w' && s[i + 3] == 's' && s[i + 4] == '-'
  {
    assert |WORKSPACE_CUT| == 5;
    if i + 5 <= |s| {
      assert s[i..i + 5] == [s[i], s[i + 1], s[i + 2], s[i + 3], s[i + 4]];
    }
  }

  lemma NamespaceChars(p: string, w: string)
    ensures var s := WorkspaceNamespace(p, w);
            && |s| == 13 + |p| + |w|
            && s[0] == 'p' && s[1] == 'r' && s[2] == 'o' && s[3] == 'j' && s[4] == 'e' && s[5] == 'c' && s[6] == 't'
            && s[7] == '-'
            && (forall i | 0 <= i < |p| :: s[8 + i] == p[i])
            && s[8 + |p|] == '-' && s[9 + |p|] == '-' && s[10 + |p|] == 'w' && s[11 + |p|] == 's' && s[12 + |p|] == '-'
            && s[..8 + |p|] == PROJECT_PREFIX + p && s[13 + |p|..] == w
  {
  }

  lemma ContainsAt(s: string, i: nat)
    requires i + 5 <= |s| && OccursAt(s, WORKSPACE_CUT, i)
    ensures Contains(s, WORKSPACE_CUT)
  {
  }

  lemma EarlyMarker(p: string, w: string, j: nat)
    requires p != "" && Alphanumeric(p[0]) && j < 8 + |p|
    requires OccursAt(WorkspaceNamespace(p, w), WORKSPACE_CUT, j)
    ensures !ProjectCuttable(p)
  {
    var s := WorkspaceNamespace(p, w);
    NamespaceChars(p, w);
    MarkerAt(s, j);
    assert j >= 8;
    var i := j - 8;
    assert s[8 + i] == p[i];
    if i + 5 <= |p| {
      MarkerAt(p, i);
      assert s[8 + (i + 1)] == p[i + 1] && s[8 + (i + 2)] == p[i + 2] && s[8 + (i + 3)] == p[i + 3]
             && s[8 + (i + 4)] == p[i + 4];
      ContainsAt(p, i);
    } else {
      assert i + 4 == |p|;
      assert s[8 + (i + 1)] == p[i + 1] && s[8 + (i + 2)] == p[i + 2] && s[8 + (i + 3)] == p[i + 3];
      assert p[i..] == [p[i], p[i + 1], p[i + 2], p[i + 3]] == "--ws";
    }
  }

  /** No marker starts in the namespace before the joining one, exactly when the project is cuttable. */
  lemma FirstMarker(p: string, w: string)
    requires p != "" && Alphanumeric(p[0])
    ensures OccursAt(WorkspaceNamespace(p, w), WORKSPACE_CUT, 8 + |p|)
    ensures ProjectCuttable(p) <==> forall j: nat | j < 8 + |p| :: !OccursAt(WorkspaceNamespace(p, w), WORKSPACE_CUT, j)
  {
    var s := WorkspaceNamespace(p, w);
    NamespaceChars(p, w);
    MarkerAt(s, 8 + |p|);
    if ProjectCuttable(p) {
      forall j: nat | j < 8 + |p| ensures !OccursAt(s, WORKSPACE_CUT, j) {
        if OccursAt(s, WORKSPACE_CUT, j) {
          EarlyMarker(p, w, j);
        }
      }
    } else if Contains(p, WORKSPACE_CUT) {
      var i: nat :| i <= |p| && OccursAt(p, WORKSPACE_CUT, i);
      MarkerAt(p, i);
      MarkerAt(s, 8 + i);
      assert s[8 + i] == p[i] && s[8 + (i + 1)] == p[i + 1] && s[8 + (i + 2)] == p[i + 2];
      assert s[8 + (i + 3)] == p[i + 3] && s[8 + (i + 4)] == p[i + 4];
      assert OccursAt(s, WORKSPACE_CUT, 8 + i);
    } else {
      var k := |p| - 4;
      var e := p[k..];
      assert e[0] == p[k] && e[1] == p[k + 1] && e[2] == p[k + 2] && e[3] == p[k + 3];
      MarkerAt(s, 8 + k);
      assert s[8 + k] == p[k] && s[8 + (k + 1)] == p[k + 1] && s[8 + (k + 2)] == p[k + 2] && s[8 + (k + 3)] == p[k + 3];
      assert OccursAt(s, WORKSPACE_CUT, 8 + k);
    }
  }

  /** The cut recovers the project and the workspace exactly when the project name is cuttable. */
  lemma CutRecovers(project: string, workspace: string)
    requires project != "" && Alphanumeric(project[0])
    ensures ProjectWorkspaceFromNamespace(WorkspaceNamespace(project, workspace)) == (project, workspace)
            <==> ProjectCuttable(project)
  {
    var s := WorkspaceNamespace(project, workspace);
    FirstMarker(project, workspace);
    NamespaceChars(project, workspace);
    var cut := Cut(s, WORKSPACE_CUT);
    var k := 8 + |project|;
    ContainsAt(s, k);
    var i := |cut.0|;
    assert OccursAt(s, WORKSPACE_CUT, i) by {
      assert s[i..i + 5] == WORKSPACE_CUT;
    }
    assert i <= k;
    if ProjectCuttable(project) {
      assert i == k;
      assert cut.0 == s[..k] == PROJECT_PREFIX + project && cut.1 == s[k + 5..] == workspace;
      assert PROJECT_PREFIX <= cut.0;
    } else {
      assert i < k;
      assert |cut.1| > |workspace|;
    }
  }

  predicate ColonFree(s: string) {
    ':' !in s
  }

  /** On cuttable workspace namespaces and colon-free names, equal aliases mean equal identities. */
  lemma AliasInjective(p1: string, w1: string, c1: string, n1: string, a1: string,
                       p2: string, w2: string, c2: string, n2: string, a2: string)
    requires p1 != "" && Alphanumeric(p1[0]) && ProjectCuttable(p1)
    requires p2 != "" && Alphanumeric(p2[0]) && ProjectCuttable(p2)
    requires ColonFree(p1) && ColonFree(w1) && ColonFree(c1) && ColonFree(n1) && ColonFree(a1)
    requires ColonFree(p2) && ColonFree(w2) && ColonFree(c2) && ColonFree(n2) && ColonFree(a2)
    requires ControlPlaneEntityAlias(WorkspaceNamespace(p1, w1), c1, n1, a1)
          == ControlPlaneEntityAlias(WorkspaceNamespace(p2, w2), c2, n2, a2)
    ensures WorkspaceNamespace(p1, w1) == WorkspaceNamespace(p2, w2) && c1 == c2 && n1 == n2 && a1 == a2
  {
    CutRecovers(p1, w1);
    CutRecovers(p2, w2);
    var xs, ys := ["ocp", p1, w1, c1, n1, a1], ["ocp", p2, w2, c2, n2, a2];
    assert ColonFree("ocp");
    JoinInjective(xs, ys, ':');
    assert xs[1] == ys[1] && xs[2] == ys[2] && xs[3] == ys[3] && xs[4] == ys[4] && xs[5] == ys[5];
  }

  // ---- Identity ID --------------------------------------------------------------------------

  /** The order of sort.Strings: lexicographic by character. */
  predicate Before(a: string, b: string) {
    a == "" || (b != "" && (a[0] < b[0] || (a[0] == b[0] && Before(a[1..], b[1..]))))
  }

  lemma {:induction false} BeforeTotal(a: string, b: string)
    ensures Before(a, b) || Before(b, a)
    ensures Before(a, b) && Before(b, a) ==> a == b
  {
    if a != "" && b != "" && a[0] == b[0] {
      BeforeTotal(a[1..], b[1..]);
      assert a == [a[0]] + a[1..] && b == [b[0]] + b[1..];
    }
  }

  lemma {:induction false} BeforeTransitive(a: string, b: string, c: string)
    requires Before(a, b) && Before(b, c)
    ensures Before(a, c)
  {
    if a != "" && a[0] == b[0] == c[0] {
      BeforeTransitive(a[1..], b[1..], c[1..]);
    }
  }

  ghost predicate Ascending(s: seq<string>) {
    forall i, j | 0 <= i < j < |s| :: Before(s[i], s[j])
  }

  function Insert(x: string, s: seq<string>): seq<string> {
    if s == [] || Before(x, s[0]) then [x] + s else [s[0]] + Insert(x, s[1..])
  }

  function Sorted(s: seq<string>): seq<string> {
    if s == [] then [] else Insert(s[0], Sorted(s[1..]))
  }

  lemma {:induction false} InsertAdds(x: string, s: seq<string>)
    ensures multiset(Insert(x, s)) == multiset{x} + multiset(s)
  {
    hide Before;
    if s != [] && !Before(x, s[0]) {
      assert s == [s[0]] + s[1..];
      InsertAdds(x, s[1..]);
    }
  }

  lemma {:induction false} InsertAscends(x: string, s: seq<string>)
    requires Ascending(s)
    ensures Ascending(Insert(x, s))
  {
    hide Before;
    var r := Insert(x, s);
    if s == [] {
    } else if Before(x, s[0]) {
      forall j | 0 < j < |r| ensures Before(r[0], r[j]) {
        if j > 1 {
          BeforeTransitive(x, s[0], s[j - 1]);
        }
      }
    } else {
      BeforeTotal(x, s[0]);
      InsertAscends(x, s[1..]);
      InsertAdds(x, s[1..]);
      var t := Insert(x, s[1..]);
      forall j | 0 < j < |r| ensures Before(r[0], r[j]) {
        assert t[j - 1] in multiset(t);
        assert t[j - 1] == x || t[j - 1] in s[1..];
      }
    }
  }

  lemma {:induction false} SortedSpec(s: seq<string>)
    ensures Ascending(Sorted(s)) && multiset(Sorted(s)) == multiset(s)
  {
    if s != [] {
      SortedSpec(s[1..]);
      InsertAscends(s[0], Sorted(s[1..]));
      InsertAdds(s[0], Sorted(s[1..]));
      assert s == [s[0]] + s[1..];
    }
  }

  lemma HeadsAgree(a: seq<string>, b: seq<string>)
    requires a != [] && b != []
    requires Ascending(a) && Ascending(b) && multiset(a) == multiset(b)
    ensures a[0] == b[0]
  {
    assert a[0] in multiset(b) && b[0] in multiset(a);
    var i :| 0 <= i < |b| && b[i] == a[0];
    var j :| 0 <= j < |a| && a[j] == b[0];
    BeforeTotal(a[0], b[0]);
  }

  lemma {:induction false} AscendingUnique(a: seq<string>, b: seq<string>)
    requires Ascending(a) && Ascending(b) && multiset(a) == multiset(b)
    ensures a == b
  {
    assert |a| == |multiset(a)| == |b|;
    if a != [] {
      HeadsAgree(a, b);
      var x, y := a[1..], b[1..];
      assert a == [a[0]] + x && b == [b[0]] + y;
      assert multiset(x) == multiset(a) - multiset{a[0]};
      assert multiset(y) == multiset(b) - multiset{b[0]};
      AscendingUnique(x, y);
    }
  }

  const IDENTITY_ID_LEN := 16

  /** What is hashed: alias, issuer, subject and sorted audiences, kept apart by NUL characters and commas. */
  function IdentityText(id: ServiceAccountIdentity): string {
    id.alias + [0 as char] + id.issuer + [0 as char] + id.subject + [0 as char] + Join(Sorted(id.audiences), ",")
  }

  function IdentityID(sha: Digest, identity: Option<ServiceAccountIdentity>): string {
    match identity
    case None => ""
    case Some(id) => HexEncode(sha(IdentityText(id)))[..IDENTITY_ID_LEN]
  }

  /** The identity ID does not depend on the order in which the token lists its audiences. */
  lemma IdentityIDIgnoresOrder(sha: Digest, identity: ServiceAccountIdentity, audiences: seq<string>)
    requires multiset(audiences) == multiset(identity.audiences)
    ensures IdentityID(sha, Some(identity.(audiences := audiences))) == IdentityID(sha, Some(identity))
  {
    SortedSpec(audiences);
    SortedSpec(identity.audiences);
    AscendingUnique(Sorted(audiences), Sorted(identity.audiences));
  }

  method SortStrings(a: array<string>)
    modifies a
    ensures a[..] == Sorted(old(a[..]))
  {
    var s := Sorted(a[..]);
    SortedSpec(a[..]);
    assert |s| == |multiset(s)| == |multiset(a[..])| == a.Length;
    forall i | 0 <= i < a.Length {
      a[i] := s[i];
    }
    assert a[..] == s;
  }

  /** Sorts a copy: having no modifies clause, the method leaves the identity's own list as it was. */
  method DeterministicIdentityID(sha: Digest, alias: string, subject: string, issuer: string, audiences: array<string>)
    returns (id: string)
    ensures id == IdentityID(sha, Some(ServiceAccountIdentity(alias, subject, issuer, audiences[..])))
    ensures |id| == IDENTITY_ID_LEN
  {
    var copy := new string[audiences.Length](i requires 0 <= i < audiences.Length reads audiences => audiences[i]);
    assert copy[..] == audiences[..];
    SortStrings(copy);
    var digest := sha(alias + [0 as char] + issuer + [0 as char] + subject + [0 as char] + Join(copy[..], ","));
    id := HexEncode(digest)[..IDENTITY_ID_LEN];
  }
}
