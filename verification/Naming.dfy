/**
 Deterministic names for the OpenBao objects the service owns (internal/openbao/naming.go).
 SHA-256 is a parameter: every statement holds for each function from texts to 32 bytes, and
 freedom from collisions of the ten-digit prefix is a hypothesis wherever it is used.
 */
module Naming {
  import opened Text

  newtype byte = x: int | 0 <= x < 256

  const DIGEST_BYTES := 32
  const AUTH_MOUNT_MAX := 60
  const ROLE_NAME_MAX := 60
  const ENTITY_NAME_MAX := 60
  const HASH_SUFFIX_LEN := 10

  type Digest = f: string -> seq<byte> | (forall s :: |f(s)| == DIGEST_BYTES)
    witness ((s: string) => seq(DIGEST_BYTES, (i: nat) => 0 as byte))

  // ---- Hexadecimal ----------------------------------------------------------------------

  predicate IsHexDigit(c: char) {
    '0' <= c <= '9' || 'a' <= c <= 'f'
  }

  predicate IsHex(s: string) {
    forall i | 0 <= i < |s| :: IsHexDigit(s[i])
  }

  function HexDigit(n: nat): (c: char)
    requires n < 16
    ensures IsHexDigit(c)
  {
    if n < 10 then ('0' as int + n) as char else ('a' as int + n - 10) as char
  }

  function HexEncode(bytes: seq<byte>): (r: string)
    ensures |r| == 2 * |bytes|
    ensures IsHex(r)
  {
    if bytes == [] then ""
    else [HexDigit(bytes[0] as int / 16), HexDigit(bytes[0] as int % 16)] + HexEncode(bytes[1..])
  }

  // ---- Sanitising -----------------------------------------------------------------------

  predicate Legal(c: char) {
    'a' <= c <= 'z' || '0' <= c <= '9' || c == '-'
  }

  predicate AllLegal(s: string) {
    forall i | 0 <= i < |s| :: Legal(s[i])
  }

  function LowerChar(c: char): char {
    if 'A' <= c <= 'Z' then (c as int + 32) as char else c
  }

  function Lower(s: string): (r: string)
    ensures |r| == |s| && forall i | 0 <= i < |s| :: r[i] == LowerChar(s[i])
  {
    seq(|s|, i requires 0 <= i < |s| => LowerChar(s[i]))
  }

  /** Replaces every maximal run of illegal characters by one dash; inRun says that a run is open. */
  function Collapse(s: string, inRun: bool): (r: string)
    ensures AllLegal(r)
    ensures AllLegal(s) ==> r == s
    ensures |r| <= |s|
  {
    if s == "" then ""
    else if Legal(s[0]) then
      var rest := Collapse(s[1..], false);
      assert AllLegal(s) ==> AllLegal(s[1..]);
      [s[0]] + rest
    else if inRun then Collapse(s[1..], true)
    else "-" + Collapse(s[1..], true)
  }

  function Sanitize(s: string): string {
    Trim(Collapse(Lower(s), false), {'-'})
  }

  /** A text over [a-z0-9-] with no dash at either end; the empty text is one. */
  predicate Segment(s: string) {
    AllLegal(s) && (s != "" ==> s[0] != '-' && s[|s| - 1] != '-')
  }

  /** A DNS label in the sense of section 2.1 of RFC 1123, length aside. */
  predicate Label(s: string) {
    s != "" && Segment(s)
  }

  lemma SanitizeGivesSegment(s: string)
    ensures Segment(Sanitize(s))
  {
    TrimmedIsSegment(Collapse(Lower(s), false));
  }

  lemma SanitizeKeepsSegments(s: string)
    requires Segment(s)
    ensures Sanitize(s) == s
  {
    hide Lower, Collapse, Trim;
    LowerKeepsLegal(s);
    TrimKeepsSegment(s);
  }

  lemma LowerKeepsLegal(s: string)
    requires AllLegal(s)
    ensures Lower(s) == s && Collapse(s, false) == s
  {
  }

  lemma TrimKeepsSegment(s: string)
    requires Segment(s)
    ensures Trim(s, {'-'}) == s
  {
  }

  /** sanitize is idempotent on every text, and its fixed points are exactly the segments. */
  lemma SanitizeIdempotent(s: string)
    ensures Sanitize(Sanitize(s)) == Sanitize(s)
    ensures Sanitize(s) == s <==> Segment(s)
  {
    SanitizeGivesSegment(s);
    SanitizeKeepsSegments(Sanitize(s));
    if Segment(s) {
      SanitizeKeepsSegments(s);
    }
  }

  // ---- Truncation with a hash suffix ------------------------------------------------------

  function HashSuffix(sha: Digest, full: string): (r: string)
    ensures |r| == HASH_SUFFIX_LEN && IsHex(r)
  {
    HexEncode(sha(full))[..HASH_SUFFIX_LEN]
  }

  function Head(full: string, room: nat): string {
    Trim(if |full| > room then full[..room] else full, {'-'})
  }

  function TruncateWithHash(sha: Digest, full: string, maxLen: nat): string {
    var suffix := HashSuffix(sha, full);
    var room := maxLen - HASH_SUFFIX_LEN - 1;
    if room < 1 then suffix
    else
      var head := Head(full, room);
      if head == "" then suffix else head + "-" + suffix
  }

  /** What every generated name is: a non-empty segment of at most max characters. */
  predicate GeneratedName(r: string, max: nat) {
    Label(r) && |r| <= max
  }

  lemma HexIsLabel(s: string)
    requires IsHex(s) && s != ""
    ensures Label(s)
  {
  }

  lemma LabelJoin(a: string, b: string)
    requires Label(a) && Label(b)
    ensures Label(a + "-" + b)
  {
    var s := a + "-" + b;
    forall i | 0 <= i < |s| ensures Legal(s[i]) {
      assert s[i] == if i < |a| then a[i] else if i == |a| then '-' else b[i - |a| - 1];
    }
  }

  lemma TrimmedIsSegment(s: string)
    requires AllLegal(s)
    ensures Segment(Trim(s, {'-'}))
  {
  }

  lemma HeadIsSegment(full: string, room: nat)
    requires AllLegal(full)
    ensures Segment(Head(full, room)) && |Head(full, room)| <= room
  {
    TrimmedIsSegment(if |full| > room then full[..room] else full);
  }

  lemma TruncatedIsName(sha: Digest, full: string, maxLen: nat)
    requires AllLegal(full) && maxLen >= HASH_SUFFIX_LEN
    ensures GeneratedName(TruncateWithHash(sha, full, maxLen), maxLen)
  {
    hide AllLegal, Segment, IsHex, Head;
    var suffix := HashSuffix(sha, full);
    var room := maxLen - HASH_SUFFIX_LEN - 1;
    HexIsLabel(suffix);
    if room >= 1 {
      HeadIsSegment(full, room);
      if Head(full, room) != "" {
        LabelJoin(Head(full, room), suffix);
      }
    }
  }

  lemma TruncatedEndsInHash(sha: Digest, full: string, maxLen: nat)
    ensures var r := TruncateWithHash(sha, full, maxLen);
            |r| >= HASH_SUFFIX_LEN && r[|r| - HASH_SUFFIX_LEN..] == HashSuffix(sha, full)
  {
  }

  // ---- The three generated names ----------------------------------------------------------

  function MountFull(prefix: string, namespace: string, controlPlane: string): string {
    var head := Sanitize(prefix);
    var tail := Sanitize(namespace + "-" + controlPlane);
    if head != "" then head + "-" + tail else tail
  }

  function AuthMountPath(sha: Digest, prefix: string, namespace: string, controlPlane: string): string {
    TruncateWithHash(sha, MountFull(prefix, namespace, controlPlane), AUTH_MOUNT_MAX)
  }

  function RoleFull(namespace: string, bindingName: string): string {
    Sanitize(namespace + "-" + bindingName)
  }

  function RoleName(sha: Digest, namespace: string, bindingName: string): string {
    TruncateWithHash(sha, RoleFull(namespace, bindingName), ROLE_NAME_MAX)
  }

  function EntityName(sha: Digest, namespace: string, projectEntityName: string): string {
    TruncateWithHash(sha, Sanitize("openbao-" + namespace + "-" + projectEntityName), ENTITY_NAME_MAX)
  }

  lemma LabelHasNoSlash(s: string)
    requires Label(s)
    ensures '/' !in s
  {
  }

  lemma MountFullIsLegal(prefix: string, namespace: string, controlPlane: string)
    ensures AllLegal(MountFull(prefix, namespace, controlPlane))
  {
    SanitizeGivesSegment(prefix);
    SanitizeGivesSegment(namespace + "-" + controlPlane);
  }

  /** Whatever the inputs, a mount path is a non-empty, slash-free segment of at most 60 characters. */
  lemma MountPathIsName(sha: Digest, prefix: string, namespace: string, controlPlane: string)
    ensures GeneratedName(AuthMountPath(sha, prefix, namespace, controlPlane), 60)
    ensures '/' !in AuthMountPath(sha, prefix, namespace, controlPlane)
  {
    MountFullIsLegal(prefix, namespace, controlPlane);
    TruncatedIsName(sha, MountFull(prefix, namespace, controlPlane), AUTH_MOUNT_MAX);
    LabelHasNoSlash(AuthMountPath(sha, prefix, namespace, controlPlane));
  }

  /** The same of role names. */
  lemma RoleNameIsName(sha: Digest, namespace: string, bindingName: string)
    ensures GeneratedName(RoleName(sha, namespace, bindingName), 60)
    ensures '/' !in RoleName(sha, namespace, bindingName)
  {
    SanitizeGivesSegment(namespace + "-" + bindingName);
    TruncatedIsName(sha, RoleFull(namespace, bindingName), ROLE_NAME_MAX);
    LabelHasNoSlash(RoleName(sha, namespace, bindingName));
  }

  /** The same of identity entity names. */
  lemma EntityNameIsName(sha: Digest, namespace: string, name: string)
    ensures GeneratedName(EntityName(sha, namespace, name), 60)
    ensures '/' !in EntityName(sha, namespace, name)
  {
    SanitizeGivesSegment("openbao-" + namespace + "-" + name);
    TruncatedIsName(sha, Sanitize("openbao-" + namespace + "-" + name), ENTITY_NAME_MAX);
    LabelHasNoSlash(EntityName(sha, namespace, name));
  }

  // ---- Injectivity modulo the hash ----------------------------------------------------------

  /** The ten-digit prefixes of the digests of the texts in use are pairwise distinct. */
  ghost predicate CollisionFree(sha: Digest, inUse: set<string>) {
    forall a, b | a in inUse && b in inUse && HashSuffix(sha, a) == HashSuffix(sha, b) :: a == b
  }

  lemma TruncationInjective(sha: Digest, a: string, b: string, maxLen: nat)
    requires CollisionFree(sha, {a, b})
    ensures TruncateWithHash(sha, a, maxLen) == TruncateWithHash(sha, b, maxLen) <==> a == b
  {
    TruncatedEndsInHash(sha, a, maxLen);
    TruncatedEndsInHash(sha, b, maxLen);
  }

  lemma JoinedLabels(a: string, b: string)
    requires Label(a) && Label(b)
    ensures Label(a + "-" + b) && Sanitize(a + "-" + b) == a + "-" + b
  {
    SanitizeKeepsSegments(a + "-" + b);
  }

  /** For label names, role names of one namespace differ exactly when the binding part differs. */
  lemma RoleNamesSeparate(sha: Digest, namespace: string, a: string, b: string)
    requires Label(namespace) && Label(a) && Label(b)
    requires CollisionFree(sha, {RoleFull(namespace, a), RoleFull(namespace, b)})
    ensures RoleName(sha, namespace, a) == RoleName(sha, namespace, b) <==> a == b
  {
    JoinedLabels(namespace, a);
    JoinedLabels(namespace, b);
    TruncationInjective(sha, RoleFull(namespace, a), RoleFull(namespace, b), ROLE_NAME_MAX);
    if RoleFull(namespace, a) == RoleFull(namespace, b) {
      assert a == RoleFull(namespace, a)[|namespace| + 1..];
      assert b == RoleFull(namespace, b)[|namespace| + 1..];
    }
  }

  /** For label names and one prefix, mount paths differ exactly when "namespace-controlPlane" does. */
  lemma MountPathsSeparate(sha: Digest, prefix: string, n1: string, c1: string, n2: string, c2: string)
    requires Label(n1) && Label(c1) && Label(n2) && Label(c2)
    requires CollisionFree(sha, {MountFull(prefix, n1, c1), MountFull(prefix, n2, c2)})
    ensures AuthMountPath(sha, prefix, n1, c1) == AuthMountPath(sha, prefix, n2, c2)
            <==> n1 + "-" + c1 == n2 + "-" + c2
  {
    JoinedLabels(n1, c1);
    JoinedLabels(n2, c2);
    var f1, f2 := MountFull(prefix, n1, c1), MountFull(prefix, n2, c2);
    TruncationInjective(sha, f1, f2, AUTH_MOUNT_MAX);
    if f1 == f2 && Sanitize(prefix) != "" {
      var h := Sanitize(prefix) + "-";
      assert f1[|h|..] == n1 + "-" + c1 && f2[|h|..] == n2 + "-" + c2;
    }
  }

  lemma {:induction false} CollapseAfterLegal(x: string, t: string)
    requires AllLegal(x)
    ensures Collapse(x + t, false) == x + Collapse(t, false)
  {
    if x == "" {
      assert x + t == t;
    } else {
      assert (x + t)[1..] == x[1..] + t;
      CollapseAfterLegal(x[1..], t);
    }
  }

  lemma CollapseDot(x: string, y: string)
    requires AllLegal(x) && AllLegal(y)
    ensures Collapse(x + "." + y, false) == x + "-" + y
  {
    calc {
      Collapse(x + "." + y, false);
      { assert x + "." + y == x + ("." + y); }
      Collapse(x + ("." + y), false);
      { CollapseAfterLegal(x, "." + y); }
      x + Collapse("." + y, false);
      { assert ("." + y)[1..] == y; }
      x + ("-" + y);
      x + "-" + y;
    }
  }

  lemma DottedIsLower(x: string, y: string)
    requires AllLegal(x) && AllLegal(y)
    ensures Lower(x + "." + y) == x + "." + y
  {
    var s := x + "." + y;
    forall i | 0 <= i < |s| ensures LowerChar(s[i]) == s[i] {
      assert s[i] == if i < |x| then x[i] else if i == |x| then '.' else y[i - |x| - 1];
    }
  }

  lemma DotBecomesDash(x: string, y: string)
    requires Label(x) && Label(y)
    ensures Sanitize(x + "." + y) == x + "-" + y
  {
    DottedIsLower(x, y);
    CollapseDot(x, y);
    LabelJoin(x, y);
  }

  lemma JoinAssociates(a: string, m: string, b: string, n: string, c: string)
    ensures a + m + (b + n + c) == (a + m + b) + n + c
  {
  }

  lemma DotMeetsDashInFull(namespace: string, x: string, y: string)
    requires Label(namespace) && Label(x) && Label(y)
    ensures RoleFull(namespace, x + "." + y) == RoleFull(namespace, x + "-" + y)
  {
    var n := namespace + "-" + x;
    LabelJoin(namespace, x);
    JoinAssociates(namespace, "-", x, ".", y);
    DotBecomesDash(n, y);
    JoinAssociates(namespace, "-", x, "-", y);
    JoinedLabels(n, y);
  }

  /** Names are not injective beyond that: a dot in a name meets a dash. */
  lemma DotMeetsDash(sha: Digest, namespace: string, x: string, y: string)
    requires Label(namespace) && Label(x) && Label(y)
    ensures RoleName(sha, namespace, x + "." + y) == RoleName(sha, namespace, x + "-" + y)
  {
    DotMeetsDashInFull(namespace, x, y);
  }

  /** Nor across the joining dash: two bindings, or two trusts, whose parts concatenate alike share a name. */
  lemma DashMeetsDash(sha: Digest, prefix: string, namespace: string, x: string, y: string, z: string)
    ensures RoleName(sha, namespace, (x + "-" + y) + "-" + z) == RoleName(sha, namespace, x + "-" + (y + "-" + z))
    ensures AuthMountPath(sha, prefix, x + "-" + y, z) == AuthMountPath(sha, prefix, x, y + "-" + z)
  {
    assert (x + "-" + y) + "-" + z == x + "-" + (y + "-" + z);
  }
}
