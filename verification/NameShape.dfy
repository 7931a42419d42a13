/** What generated names read like, and what sanitizing does to a text, without reference to how it is done. */
module NameShape {
  import opened Text
  import opened Naming

  const DASH: set<char> := {'-'}

  // ---- The head and the hash ---------------------------------------------------------------------

  /** The part of the full name there is room for, before the dash and the digits. */
  function Room(full: string, maxLen: nat): string
    requires maxLen >= HASH_SUFFIX_LEN + 2
  {
    if |full| > maxLen - HASH_SUFFIX_LEN - 1 then full[..maxLen - HASH_SUFFIX_LEN - 1] else full
  }

  /** For every text: of what there is room for only dashes at the ends are lost, then come a dash and the digits. */
  lemma NameReads(sha: Digest, full: string, maxLen: nat) returns (a: string, head: string, b: string)
    requires maxLen >= HASH_SUFFIX_LEN + 2
    ensures Room(full, maxLen) == a + head + b && Only(a, DASH) && Only(b, DASH)
    ensures head != "" ==> head[0] != '-' && head[|head| - 1] != '-'
    ensures TruncateWithHash(sha, full, maxLen)
            == if head == "" then HashSuffix(sha, full) else head + "-" + HashSuffix(sha, full)
  {
    a, b := TrimCuts(Room(full, maxLen), DASH);
    head := Trim(Room(full, maxLen), DASH);
  }

  /** Without room for a head, the digits alone. */
  lemma NoRoomForHead(sha: Digest, full: string, maxLen: nat)
    requires maxLen < HASH_SUFFIX_LEN + 2
    ensures TruncateWithHash(sha, full, maxLen) == HashSuffix(sha, full)
  {
  }

  /** A label that fits is read in full. */
  lemma ShortNameReads(sha: Digest, full: string, maxLen: nat)
    requires Label(full) && |full| + HASH_SUFFIX_LEN + 1 <= maxLen
    ensures TruncateWithHash(sha, full, maxLen) == full + "-" + HashSuffix(sha, full)
  {
    var a, head, b := NameReads(sha, full, maxLen);
    PaddedLabel(full, a, head, b);
  }

  lemma PaddingShows(a: string, head: string, b: string, cut: set<char>)
    requires Only(a, cut) && Only(b, cut)
    ensures var s := a + head + b; (a != "" ==> s[0] in cut) && (b != "" ==> s[|s| - 1] in cut)
  {
    if a != "" {
      assert a[0] in a;
    }
    if b != "" {
      assert b[|b| - 1] in b;
    }
  }

  lemma PaddedLabel(s: string, a: string, head: string, b: string)
    requires Label(s) && s == a + head + b && Only(a, DASH) && Only(b, DASH)
    ensures head == s
  {
    PaddingShows(a, head, b, DASH);
  }

  lemma PaddedPrefix(r: string, a: string, head: string, b: string)
    requires r != "" && r[0] != '-' && r == a + head + b && Only(a, DASH) && Only(b, DASH)
    ensures head != "" && head <= r
    ensures forall i | |head| <= i < |r| :: r[i] == '-'
  {
    PaddingShows(a, head, b, DASH);
    assert r == head + b;
    forall i | |head| <= i < |r| ensures r[i] == '-' {
      assert b[i - |head|] in b && r[i] == b[i - |head|];
    }
  }

  /** Of a longer label a non-empty start is read, and only dashes are missing between its end and the room. */
  lemma LongNameReads(sha: Digest, full: string, maxLen: nat) returns (head: string)
    requires Label(full) && maxLen >= HASH_SUFFIX_LEN + 2 && |full| > maxLen - HASH_SUFFIX_LEN - 1
    ensures head != "" && head <= full && |head| <= maxLen - HASH_SUFFIX_LEN - 1
    ensures forall i | |head| <= i < maxLen - HASH_SUFFIX_LEN - 1 :: full[i] == '-'
    ensures TruncateWithHash(sha, full, maxLen) == head + "-" + HashSuffix(sha, full)
  {
    hide TruncateWithHash, HashSuffix, AllLegal, Only;
    var a, h, b := NameReads(sha, full, maxLen);
    head := h;
    PaddedPrefix(full[..maxLen - HASH_SUFFIX_LEN - 1], a, head, b);
  }

  // ---- The three names ------------------------------------------------------------------------------

  /** A name made from parts reads as the parts in order, up to where the room ends. */
  predicate Reads(sha: Digest, name: string, full: string) {
    if |full| <= 49 then name == full + "-" + HashSuffix(sha, full)
    else
      exists h | 0 < h <= 49 ::
        name == full[..h] + "-" + HashSuffix(sha, full) && forall i | h <= i < 49 :: full[i] == '-'
  }

  lemma NameOfLabel(sha: Digest, full: string)
    requires Label(full)
    ensures Reads(sha, TruncateWithHash(sha, full, 60), full)
  {
    if |full| <= 49 {
      ShortNameReads(sha, full, 60);
    } else {
      var head := LongNameReads(sha, full, 60);
      assert head == full[..|head|];
    }
  }

  /** Prefix, namespace and control plane, in this order; without a prefix the other two. */
  lemma MountPathReads(sha: Digest, prefix: string, namespace: string, controlPlane: string)
    requires (prefix == "" || Label(prefix)) && Label(namespace) && Label(controlPlane)
    ensures Reads(sha, AuthMountPath(sha, prefix, namespace, controlPlane),
                  if prefix == "" then namespace + "-" + controlPlane
                  else prefix + "-" + namespace + "-" + controlPlane)
  {
    hide Reads, TruncateWithHash, Label, Segment, Sanitize;
    JoinedLabels(namespace, controlPlane);
    KeptPrefix(prefix);
    if prefix == "" {
      NameOfLabel(sha, namespace + "-" + controlPlane);
    } else {
      LabelJoin(prefix, namespace + "-" + controlPlane);
      assert prefix + "-" + namespace + "-" + controlPlane == prefix + "-" + (namespace + "-" + controlPlane);
      NameOfLabel(sha, prefix + "-" + (namespace + "-" + controlPlane));
    }
  }

  lemma KeptPrefix(prefix: string)
    requires prefix == "" || Label(prefix)
    ensures Sanitize(prefix) == prefix
  {
    hide Sanitize;
    SanitizeKeepsSegments(prefix);
  }

  /** Namespace and binding name, in this order. */
  lemma RoleNameReads(sha: Digest, namespace: string, bindingName: string)
    requires Label(namespace) && Label(bindingName)
    ensures Reads(sha, RoleName(sha, namespace, bindingName), namespace + "-" + bindingName)
  {
    hide Reads, TruncateWithHash, Label, Sanitize;
    JoinedLabels(namespace, bindingName);
    NameOfLabel(sha, namespace + "-" + bindingName);
  }

  /** The service's own mark, namespace and name, in this order. */
  lemma EntityNameReads(sha: Digest, namespace: string, name: string)
    requires Label(namespace) && Label(name)
    ensures Reads(sha, EntityName(sha, namespace, name), "openbao-" + namespace + "-" + name)
  {
    hide Reads, TruncateWithHash, Label, Sanitize;
    MarkIsLabel();
    JoinedLabels("openbao", namespace);
    assert "openbao" + "-" + namespace == "openbao-" + namespace;
    JoinedLabels("openbao-" + namespace, name);
    NameOfLabel(sha, "openbao-" + namespace + "-" + name);
  }

  lemma MarkIsLabel()
    ensures Label("openbao")
  {
  }

  // ---- Sanitizing ------------------------------------------------------------------------------------------

  predicate NoneLegal(s: string) {
    forall i | 0 <= i < |s| :: !Legal(s[i])
  }

  lemma {:induction false} CollapseRun(x: string, b: string, inRun: bool)
    requires x != "" && NoneLegal(x) && (b == "" || Legal(b[0]))
    ensures Collapse(x + b, inRun) == (if inRun then "" else "-") + Collapse(b, false)
    decreases x
  {
    var s := x + b;
    assert s[1..] == x[1..] + b;
    if |x| == 1 {
      assert s[1..] == b;
      assert Collapse(b, true) == Collapse(b, false);
    } else {
      CollapseRun(x[1..], b, true);
      assert "" + Collapse(b, false) == Collapse(b, false);
    }
  }

  /** Every maximal run of other characters becomes one dash, and the legal text around it stays. */
  lemma RunBecomesDash(a: string, x: string, b: string)
    requires AllLegal(a) && x != "" && NoneLegal(x) && (b == "" || Legal(b[0]))
    ensures Collapse(a + x + b, false) == a + "-" + Collapse(b, false)
  {
    hide Collapse, AllLegal, NoneLegal, Legal;
    assert a + x + b == a + (x + b);
    CollapseAfterLegal(a, x + b);
    CollapseRun(x, b, false);
    assert a + "-" + Collapse(b, false) == a + ("-" + Collapse(b, false));
  }

  /** The texts agree but for ASCII letters in upper case in the first. */
  predicate SameLetters(s: string, t: string) {
    |s| == |t| && forall i | 0 <= i < |s| :: s[i] == t[i] || ('A' <= s[i] <= 'Z' && t[i] as int == s[i] as int + 32)
  }

  lemma SanitizeFoldsCase(s: string, t: string)
    requires SameLetters(s, t)
    ensures Sanitize(s) == Sanitize(t)
  {
    assert Lower(s) == Lower(t) by {
      forall i | 0 <= i < |s| ensures Lower(s)[i] == Lower(t)[i] {
        assert s[i] == t[i] || LowerChar(s[i]) == t[i] == LowerChar(t[i]);
      }
    }
  }

  /** Sanitizing ends with the dashes at the ends cut off, and with nothing else cut off. */
  lemma SanitizeTrims(s: string) returns (a: string, b: string)
    ensures Collapse(Lower(s), false) == a + Sanitize(s) + b && Only(a, DASH) && Only(b, DASH)
  {
    a, b := TrimCuts(Collapse(Lower(s), false), DASH);
  }

  // ---- Hexadecimal -------------------------------------------------------------------------------------------

  function HexValue(c: char): nat
    requires IsHexDigit(c)
  {
    if c <= '9' then c as int - '0' as int else c as int - 'a' as int + 10
  }

  /** Two digits a byte, the high one first: the digits give the bytes back. */
  lemma {:induction false} HexRoundTrip(bytes: seq<byte>, i: nat)
    requires i < |bytes|
    ensures var r := HexEncode(bytes); 16 * HexValue(r[2 * i]) + HexValue(r[2 * i + 1]) == bytes[i] as int
  {
    if i > 0 {
      HexRoundTrip(bytes[1..], i - 1);
      var r, t := HexEncode(bytes), HexEncode(bytes[1..]);
      assert r[2 * i] == t[2 * (i - 1)] && r[2 * i + 1] == t[2 * (i - 1) + 1];
    }
  }

  /** The suffix is the first ten digits: the first five bytes of the digest, each as its two digits. */
  lemma SuffixIsDigest(sha: Digest, full: string, i: nat)
    requires i < 5
    ensures var r := HashSuffix(sha, full); 16 * HexValue(r[2 * i]) + HexValue(r[2 * i + 1]) == sha(full)[i] as int
  {
    HexRoundTrip(sha(full), i);
  }
}
