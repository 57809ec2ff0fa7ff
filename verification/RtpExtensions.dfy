/** RTP header extension lists of api/rtp_parameters.cc: lookup by URI under the three
    encryption filters, and the two-pass deduplication that sorts its result. */
module RtpExtensions {
  import opened Basics

  datatype RtpExtension = RtpExtension(uri: string, id: int, encrypt: bool)

  datatype Filter = DiscardEncrypted | PreferEncrypted | RequireEncrypted

  type Extensions = seq<RtpExtension>

  // ---------------------------------------------------------------------
  // What an entry's position in a list means
  // ---------------------------------------------------------------------

  predicate Matches(e: RtpExtension, uri: string, encrypt: bool) {
    e.uri == uri && e.encrypt == encrypt
  }

  /** The first entry with this URI and encryption. */
  function First(xs: Extensions, uri: string, encrypt: bool): Option<RtpExtension> {
    if xs == [] then None
    else if Matches(xs[0], uri, encrypt) then Some(xs[0])
    else First(xs[1..], uri, encrypt)
  }

  /** The last entry with this URI and encryption. */
  function Last(xs: Extensions, uri: string, encrypt: bool): Option<RtpExtension> {
    if xs == [] then None
    else if Matches(xs[|xs| - 1], uri, encrypt) then Some(xs[|xs| - 1])
    else Last(xs[..|xs| - 1], uri, encrypt)
  }

  /** The entry a filter selects for a URI: the first encrypted one unless encrypted entries
      are discarded, else the first unencrypted one unless encryption is required. */
  function Selected(xs: Extensions, uri: string, filter: Filter): Option<RtpExtension> {
    if filter != DiscardEncrypted && First(xs, uri, true).Some? then First(xs, uri, true)
    else if filter != RequireEncrypted then First(xs, uri, false)
    else None
  }

  lemma {:induction false} FirstAppend(xs: Extensions, ys: Extensions, uri: string, encrypt: bool)
    ensures First(xs + ys, uri, encrypt) ==
            if First(xs, uri, encrypt).Some? then First(xs, uri, encrypt) else First(ys, uri, encrypt)
    decreases |xs|
  {
    if xs == [] {
      assert xs + ys == ys;
    } else {
      FirstAppend(xs[1..], ys, uri, encrypt);
      assert (xs + ys)[1..] == xs[1..] + ys;
    }
  }

  lemma {:induction false} FirstIsMember(xs: Extensions, uri: string, encrypt: bool)
    ensures var r := First(xs, uri, encrypt);
            r.Some? ==> r.value in xs && Matches(r.value, uri, encrypt)
    ensures First(xs, uri, encrypt).None? ==> forall e :: e in xs ==> !Matches(e, uri, encrypt)
    decreases |xs|
  {
    if xs != [] {
      FirstIsMember(xs[1..], uri, encrypt);
      assert xs == [xs[0]] + xs[1..];
    }
  }

  lemma SelectedIsMember(xs: Extensions, uri: string, filter: Filter)
    ensures var r := Selected(xs, uri, filter); r.Some? ==> r.value in xs && r.value.uri == uri
  {
    FirstIsMember(xs, uri, true);
    FirstIsMember(xs, uri, false);
  }

  // ---------------------------------------------------------------------
  // Lookups
  // ---------------------------------------------------------------------

  lemma FirstStep(xs: Extensions, i: nat, uri: string, encrypt: bool)
    requires i < |xs|
    ensures First(xs[i..], uri, encrypt) ==
            if Matches(xs[i], uri, encrypt) then Some(xs[i]) else First(xs[i + 1..], uri, encrypt)
  {
    assert xs[i..][1..] == xs[i + 1..];
  }

  lemma LastStep(xs: Extensions, i: nat, uri: string, encrypt: bool)
    requires i < |xs|
    ensures Last(xs[..i + 1], uri, encrypt) ==
            if Matches(xs[i], uri, encrypt) then Some(xs[i]) else Last(xs[..i], uri, encrypt)
  {
    assert xs[..i + 1][..i] == xs[..i];
  }

  /** RtpExtension::FindHeaderExtensionByUriAndEncryption. */
  method FindHeaderExtensionByUriAndEncryption(xs: Extensions, uri: string, encrypt: bool)
    returns (r: Option<RtpExtension>)
    ensures r == First(xs, uri, encrypt)
  {
    assert xs[0..] == xs;
    for i := 0 to |xs|
      invariant First(xs, uri, encrypt) == First(xs[i..], uri, encrypt)
    {
      FirstStep(xs, i, uri, encrypt);
      if xs[i].uri == uri && xs[i].encrypt == encrypt {
        return Some(xs[i]);
      }
    }
    return None;
  }

  /** What the loop of FindHeaderExtensionByUri finds: the fallback of the preferring filter
      is overwritten by every unencrypted match, so it is the last one. */
  function Found(xs: Extensions, uri: string, filter: Filter): Option<RtpExtension> {
    match filter
    case DiscardEncrypted => First(xs, uri, false)
    case RequireEncrypted => First(xs, uri, true)
    case PreferEncrypted =>
      if First(xs, uri, true).Some? then First(xs, uri, true) else Last(xs, uri, false)
  }

  ghost predicate NoneMatches(xs: Extensions, uri: string, encrypt: bool) {
    forall e :: e in xs ==> !Matches(e, uri, encrypt)
  }

  /** The position the lookup settles on. */
  ghost predicate FoundAt(xs: Extensions, uri: string, filter: Filter, i: int) {
    match filter
    case DiscardEncrypted => FirstAt(xs, uri, false, i)
    case RequireEncrypted => FirstAt(xs, uri, true, i)
    case PreferEncrypted => FirstAt(xs, uri, true, i) || (NoneMatches(xs, uri, true) && LastAt(xs, uri, false, i))
  }

  ghost predicate IsFound(xs: Extensions, uri: string, filter: Filter, r: Option<RtpExtension>) {
    if r.Some? then exists i :: FoundAt(xs, uri, filter, i) && xs[i] == r.value
    else forall i :: !FoundAt(xs, uri, filter, i)
  }

  lemma FoundByPosition(xs: Extensions, uri: string, filter: Filter)
    ensures IsFound(xs, uri, filter, Found(xs, uri, filter))
  {
    FirstIsMember(xs, uri, true);
    FirstIsMember(xs, uri, false);
    LastIsMember(xs, uri, false);
    FirstHasIndex(xs, uri, true);
    FirstHasIndex(xs, uri, false);
    LastHasIndex(xs, uri, false);
    var r := Found(xs, uri, filter);
    if r.Some? {
      if First(xs, uri, true) == r && filter != DiscardEncrypted {
        var i :| FirstAt(xs, uri, true, i) && xs[i] == r.value;
        assert FoundAt(xs, uri, filter, i);
      } else if filter == DiscardEncrypted {
        var i :| FirstAt(xs, uri, false, i) && xs[i] == r.value;
        assert FoundAt(xs, uri, filter, i);
      } else {
        var i :| LastAt(xs, uri, false, i) && xs[i] == r.value;
        assert FoundAt(xs, uri, filter, i);
      }
    }
  }

  /** RtpExtension::FindHeaderExtensionByUri. */
  method FindHeaderExtensionByUri(xs: Extensions, uri: string, filter: Filter)
    returns (r: Option<RtpExtension>)
    ensures r == Found(xs, uri, filter)
    ensures IsFound(xs, uri, filter, r)
  {
    hide IsFound;
    FoundByPosition(xs, uri, filter);
    assert xs[0..] == xs && xs[..|xs|] == xs;
    var fallback: Option<RtpExtension> := None;
    for i := 0 to |xs|
      invariant filter != RequireEncrypted && filter != PreferEncrypted ==>
                  First(xs, uri, false) == First(xs[i..], uri, false)
      invariant filter != DiscardEncrypted ==> First(xs, uri, true) == First(xs[i..], uri, true)
      invariant fallback == if filter == PreferEncrypted then Last(xs[..i], uri, false) else None
    {
      FirstStep(xs, i, uri, true);
      FirstStep(xs, i, uri, false);
      LastStep(xs, i, uri, false);
      if xs[i].uri != uri {
        continue;
      }
      match filter
      case DiscardEncrypted =>
        if !xs[i].encrypt {
          return Some(xs[i]);
        }
      case PreferEncrypted =>
        if xs[i].encrypt {
          return Some(xs[i]);
        } else {
          fallback := Some(xs[i]);
        }
      case RequireEncrypted =>
        if xs[i].encrypt {
          return Some(xs[i]);
        }
    }
    return fallback;
  }

  ghost predicate FirstAt(xs: Extensions, uri: string, encrypt: bool, i: int) {
    && 0 <= i < |xs| && Matches(xs[i], uri, encrypt)
    && forall j :: 0 <= j < i ==> !Matches(xs[j], uri, encrypt)
  }

  ghost predicate LastAt(xs: Extensions, uri: string, encrypt: bool, i: int) {
    && 0 <= i < |xs| && Matches(xs[i], uri, encrypt)
    && forall j :: i < j < |xs| ==> !Matches(xs[j], uri, encrypt)
  }

  lemma {:induction false} FirstHasIndex(xs: Extensions, uri: string, encrypt: bool)
    ensures First(xs, uri, encrypt).Some? ==>
              exists i :: FirstAt(xs, uri, encrypt, i) && xs[i] == First(xs, uri, encrypt).value
    decreases |xs|
  {
    if First(xs, uri, encrypt).Some? {
      if Matches(xs[0], uri, encrypt) {
        assert FirstAt(xs, uri, encrypt, 0);
      } else {
        FirstHasIndex(xs[1..], uri, encrypt);
        var i :| FirstAt(xs[1..], uri, encrypt, i) && xs[1..][i] == First(xs[1..], uri, encrypt).value;
        assert forall j :: 0 < j < |xs| ==> xs[1..][j - 1] == xs[j];
        assert FirstAt(xs, uri, encrypt, i + 1);
      }
    }
  }

  lemma {:induction false} LastHasIndex(xs: Extensions, uri: string, encrypt: bool)
    ensures Last(xs, uri, encrypt).Some? ==>
              exists i :: LastAt(xs, uri, encrypt, i) && xs[i] == Last(xs, uri, encrypt).value
    decreases |xs|
  {
    var n := |xs| - 1;
    if Last(xs, uri, encrypt).Some? {
      if Matches(xs[n], uri, encrypt) {
        assert LastAt(xs, uri, encrypt, n);
      } else {
        LastHasIndex(xs[..n], uri, encrypt);
        var i :| LastAt(xs[..n], uri, encrypt, i) && xs[..n][i] == Last(xs[..n], uri, encrypt).value;
        assert LastAt(xs, uri, encrypt, i);
      }
    }
  }

  /** The lookup returns what deduplication keeps exactly when the preferring filter does not
      have to choose among different unencrypted entries: some entry for the URI is
      encrypted, or the first and the last unencrypted one are equal.  The other two filters
      always agree. */
  lemma LookupAgreement(xs: Extensions, uri: string, filter: Filter)
    ensures Found(xs, uri, filter) == Selected(xs, uri, filter) <==>
            || filter != PreferEncrypted
            || (exists e :: e in xs && Matches(e, uri, true))
            || (forall i, j :: FirstAt(xs, uri, false, i) && LastAt(xs, uri, false, j) ==> xs[i] == xs[j])
  {
    FirstIsMember(xs, uri, true);
    FirstIsMember(xs, uri, false);
    LastIsMember(xs, uri, false);
    FirstHasIndex(xs, uri, false);
    LastHasIndex(xs, uri, false);
  }

  /** Two unencrypted entries under one URI: the lookup returns the second, deduplication
      keeps the first. */
  lemma LookupDisagrees()
    ensures var a, b := RtpExtension("u", 1, false), RtpExtension("u", 2, false);
            && Found([a, b], "u", PreferEncrypted) == Some(b)
            && Selected([a, b], "u", PreferEncrypted) == Some(a)
  {
    var a, b := RtpExtension("u", 1, false), RtpExtension("u", 2, false);
    assert [a, b][1..] == [b];
    assert [a, b][..1] == [a];
    assert First([a, b], "u", true) == First([b], "u", true) == First([b][1..], "u", true) == None;
  }

  ghost predicate Distinct(xs: Extensions) {
    forall i, j :: 0 <= i < j < |xs| ==> xs[i].uri != xs[j].uri || xs[i].encrypt != xs[j].encrypt
  }

  lemma {:induction false} LastIsMember(xs: Extensions, uri: string, encrypt: bool)
    ensures var r := Last(xs, uri, encrypt);
            r.Some? ==> r.value in xs && Matches(r.value, uri, encrypt)
    ensures Last(xs, uri, encrypt).None? ==> forall e :: e in xs ==> !Matches(e, uri, encrypt)
    decreases |xs|
  {
    if xs != [] {
      LastIsMember(xs[..|xs| - 1], uri, encrypt);
      assert xs == xs[..|xs| - 1] + [xs[|xs| - 1]];
    }
  }

  lemma DistinctMemberUnique(xs: Extensions, a: RtpExtension, b: RtpExtension)
    requires Distinct(xs) && a in xs && b in xs && a.uri == b.uri && a.encrypt == b.encrypt
    ensures a == b
  {
  }

  /** A list in which no two entries share URI and encryption never makes them disagree. */
  lemma DistinctListsAgree(xs: Extensions, uri: string, filter: Filter)
    requires Distinct(xs)
    ensures Found(xs, uri, filter) == Selected(xs, uri, filter)
  {
    LookupAgreement(xs, uri, filter);
    FirstIsMember(xs, uri, false);
    LastIsMember(xs, uri, false);
    forall i, j | FirstAt(xs, uri, false, i) && LastAt(xs, uri, false, j)
      ensures xs[i] == xs[j]
    {
      DistinctMemberUnique(xs, xs[i], xs[j]);
    }
  }

  // ---------------------------------------------------------------------
  // Order on URIs
  // ---------------------------------------------------------------------

  /** Lexicographic order of std::string. */
  predicate Before(a: string, b: string) {
    if b == [] then false
    else if a == [] then true
    else a[0] < b[0] || (a[0] == b[0] && Before(a[1..], b[1..]))
  }

  /** a and b agree up to position k, where a ends or has the smaller character. */
  predicate PartsAt(a: string, b: string, k: int) {
    0 <= k <= |a| && k < |b| && a[..k] == b[..k] && (k < |a| ==> a[k] < b[k])
  }

  /** Lexicographic order. */
  ghost predicate Precedes(a: string, b: string) {
    exists k :: PartsAt(a, b, k)
  }

  lemma {:induction false} BeforeIff(a: string, b: string)
    ensures Before(a, b) <==> Precedes(a, b)
    decreases |a|
  {
    if a != [] && b != [] && a[0] == b[0] {
      BeforeIff(a[1..], b[1..]);
      forall k
        ensures PartsAt(a[1..], b[1..], k) <==> PartsAt(a, b, k + 1)
      {
        if 0 <= k <= |a| - 1 && k < |b| - 1 {
          assert a[..k + 1] == [a[0]] + a[1..][..k] && b[..k + 1] == [b[0]] + b[1..][..k];
        }
      }
      assert !PartsAt(a, b, 0);
      if k :| PartsAt(a, b, k) {
        assert PartsAt(a[1..], b[1..], k - 1);
      }
    } else if a == [] && b != [] {
      assert PartsAt(a, b, 0);
    } else if b != [] {
      assert PartsAt(a, b, 0) <==> a[0] < b[0];
      forall k | k > 0
        ensures !PartsAt(a, b, k)
      {
        if k <= |a| && k < |b| {
          assert a[..k][0] != b[..k][0];
        }
      }
    }
  }

  lemma {:induction false} BeforeTrichotomy(a: string, b: string)
    ensures a == b || Before(a, b) || Before(b, a)
    ensures !(Before(a, b) && Before(b, a))
    ensures !Before(a, a)
    decreases |a|, |b|
  {
    if a != [] {
      BeforeTrichotomy(a[1..], a[1..]);
      if b != [] {
        BeforeTrichotomy(a[1..], b[1..]);
        if a[0] == b[0] && a[1..] == b[1..] {
          assert a == [a[0]] + a[1..] == b;
        }
      }
    }
  }

  lemma {:induction false} BeforeTransitive(a: string, b: string, c: string)
    requires Before(a, b) && Before(b, c)
    ensures Before(a, c)
    decreases |a|
  {
    if a != [] && a[0] == b[0] == c[0] {
      BeforeTransitive(a[1..], b[1..], c[1..]);
    }
  }

  /** std::tie(uri, encrypt, id) comparison of the sort. */
  predicate Less(a: RtpExtension, b: RtpExtension) {
    || Before(a.uri, b.uri)
    || (a.uri == b.uri && !a.encrypt && b.encrypt)
    || (a.uri == b.uri && a.encrypt == b.encrypt && a.id < b.id)
  }

  ghost predicate UniqueUris(xs: Extensions) {
    forall i, j :: 0 <= i < j < |xs| ==> xs[i].uri != xs[j].uri
  }

  /** Strictly ascending URIs: sorted and without duplicates. */
  ghost predicate Ascending(xs: Extensions) {
    forall i, j :: 0 <= i < j < |xs| ==> Before(xs[i].uri, xs[j].uri)
  }

  // ---------------------------------------------------------------------
  // Deduplication
  // ---------------------------------------------------------------------

  /** What the output must be: ascending URIs, holding for each URI exactly the entry the
      filter selects. */
  ghost predicate Canonical(xs: Extensions, filter: Filter, out: Extensions) {
    && Ascending(out)
    && forall e :: e in out <==> Selected(xs, e.uri, filter) == Some(e)
  }

  /** HeaderExtensionWithUriExists. */
  method HeaderExtensionWithUriExists(xs: Extensions, uri: string) returns (r: bool)
    ensures r <==> exists e :: e in xs && e.uri == uri
  {
    for i := 0 to |xs|
      invariant forall j :: 0 <= j < i ==> xs[j].uri != uri
    {
      if xs[i].uri == uri {
        return true;
      }
    }
    return false;
  }

  /** The entries one pass keeps: for a URI not yet taken, the first one of its kind. */
  ghost predicate PassDone(base: Extensions, xs: Extensions, encrypt: bool, filtered: Extensions) {
    && UniqueUris(filtered)
    && base <= filtered
    && forall e :: e in filtered <==>
                   e in base || ((forall b :: b in base ==> b.uri != e.uri) && First(xs, e.uri, encrypt) == Some(e))
  }

  lemma PassStep(base: Extensions, xs: Extensions, encrypt: bool, filtered: Extensions, e: RtpExtension)
    requires PassDone(base, xs, encrypt, filtered)
    ensures e.encrypt == encrypt && (forall f :: f in filtered ==> f.uri != e.uri) ==>
              PassDone(base, xs + [e], encrypt, filtered + [e])
    ensures e.encrypt != encrypt || (exists f :: f in filtered && f.uri == e.uri) ==>
              PassDone(base, xs + [e], encrypt, filtered)
  {
    forall x: RtpExtension
      ensures First(xs + [e], x.uri, encrypt) ==
              if First(xs, x.uri, encrypt).Some? then First(xs, x.uri, encrypt)
              else if Matches(e, x.uri, encrypt) then Some(e) else None
    {
      FirstAppend(xs, [e], x.uri, encrypt);
      assert [e][1..] == [];
    }
    FirstIsMember(xs, e.uri, encrypt);
    if e.encrypt == encrypt && First(xs, e.uri, encrypt).Some? {
      var f := First(xs, e.uri, encrypt).value;
      assert f in filtered || exists b :: b in base && b.uri == e.uri;
    }
  }

  /** One of the two loops of DeduplicateHeaderExtensions. */
  method Pass(base: Extensions, xs: Extensions, encrypt: bool) returns (filtered: Extensions)
    requires UniqueUris(base)
    ensures PassDone(base, xs, encrypt, filtered)
  {
    filtered := base;
    assert xs[..0] == [];
    for i := 0 to |xs|
      invariant PassDone(base, xs[..i], encrypt, filtered)
    {
      PassStep(base, xs[..i], encrypt, filtered, xs[i]);
      assert xs[..i + 1] == xs[..i] + [xs[i]];
      if xs[i].encrypt != encrypt {
        continue;
      }
      var taken := HeaderExtensionWithUriExists(filtered, xs[i].uri);
      if !taken {
        filtered := filtered + [xs[i]];
      }
    }
    assert xs[..|xs|] == xs;
  }

  /** std::sort with the comparison above, as insertion into a sorted prefix. */
  method Sort(xs: Extensions) returns (out: Extensions)
    requires UniqueUris(xs)
    ensures Ascending(out)
    ensures forall i, j :: 0 <= i < j < |out| ==> Precedes(out[i].uri, out[j].uri)
    ensures forall e :: e in out <==> e in xs
  {
    hide Precedes;
    out := [];
    for i := 0 to |xs|
      invariant Ascending(out)
      invariant forall e :: e in out <==> e in xs[..i]
    {
      var k := 0;
      while k < |out| && Less(out[k], xs[i])
        invariant 0 <= k <= |out|
        invariant forall j :: 0 <= j < k ==> Less(out[j], xs[i])
      {
        k := k + 1;
      }
      forall e | e in out
        ensures e.uri != xs[i].uri
      {
        assert e in xs[..i];
      }
      InsertKeepsOrder(out, k, xs[i]);
      var before := out;
      out := out[..k] + [xs[i]] + out[k..];
      forall e
        ensures e in out <==> e in xs[..i + 1]
      {
        assert before == before[..k] + before[k..];
        assert xs[..i + 1] == xs[..i] + [xs[i]];
      }
    }
    assert xs[..|xs|] == xs;
    forall i, j | 0 <= i < j < |out|
      ensures Precedes(out[i].uri, out[j].uri)
    {
      BeforeIff(out[i].uri, out[j].uri);
    }
  }

  lemma InsertKeepsOrder(out: Extensions, k: nat, e: RtpExtension)
    requires Ascending(out) && k <= |out|
    requires forall j :: 0 <= j < |out| ==> out[j].uri != e.uri
    requires forall j :: 0 <= j < k ==> Less(out[j], e)
    requires k < |out| ==> !Less(out[k], e)
    ensures Ascending(out[..k] + [e] + out[k..])
  {
    if k < |out| {
      BeforeTrichotomy(out[k].uri, e.uri);
    }
    forall j | k < j < |out|
      ensures Before(e.uri, out[j].uri)
    {
      BeforeTransitive(e.uri, out[k].uri, out[j].uri);
    }
  }

  /** The position of an entry the filter keeps: the first encrypted one of its URI, or the
      first unencrypted one if no encrypted one takes precedence. */
  ghost predicate KeptAt(xs: Extensions, filter: Filter, i: int) {
    && 0 <= i < |xs| && FirstAt(xs, xs[i].uri, xs[i].encrypt, i)
    && if xs[i].encrypt then filter != DiscardEncrypted
       else filter == DiscardEncrypted || (filter == PreferEncrypted && NoneMatches(xs, xs[i].uri, true))
  }

  ghost predicate IsKept(xs: Extensions, filter: Filter, e: RtpExtension) {
    exists i :: KeptAt(xs, filter, i) && xs[i] == e
  }

  lemma SelectedByPosition(xs: Extensions, e: RtpExtension, filter: Filter)
    ensures Selected(xs, e.uri, filter) == Some(e) <==> IsKept(xs, filter, e)
  {
    FirstIsMember(xs, e.uri, true);
    FirstIsMember(xs, e.uri, false);
    FirstHasIndex(xs, e.uri, true);
    FirstHasIndex(xs, e.uri, false);
    if Selected(xs, e.uri, filter) == Some(e) {
      assert First(xs, e.uri, e.encrypt) == Some(e);
      var i :| FirstAt(xs, e.uri, e.encrypt, i) && xs[i] == e;
      assert KeptAt(xs, filter, i);
    }
    if IsKept(xs, filter, e) {
      var i :| KeptAt(xs, filter, i) && xs[i] == e;
      var f := First(xs, e.uri, e.encrypt);
      assert e in xs && Matches(e, e.uri, e.encrypt);
      var j :| FirstAt(xs, e.uri, e.encrypt, j) && xs[j] == f.value;
      assert i == j;
    }
  }

  lemma CanonicalByPosition(xs: Extensions, filter: Filter, out: Extensions)
    requires Canonical(xs, filter, out)
    ensures forall i, j :: 0 <= i < j < |out| ==> Precedes(out[i].uri, out[j].uri)
    ensures forall e :: e in out <==> IsKept(xs, filter, e)
  {
    hide Selected, Before, Precedes, IsKept;
    forall i, j | 0 <= i < j < |out|
      ensures Precedes(out[i].uri, out[j].uri)
    {
      BeforeIff(out[i].uri, out[j].uri);
    }
    forall e: RtpExtension
      ensures Selected(xs, e.uri, filter) == Some(e) <==> IsKept(xs, filter, e)
    {
      SelectedByPosition(xs, e, filter);
    }
  }

  /** RtpExtension::DeduplicateHeaderExtensions: URIs in ascending lexicographic order, and
      exactly the entries the filter keeps. */
  method DeduplicateHeaderExtensions(xs: Extensions, filter: Filter) returns (out: Extensions)
    ensures Canonical(xs, filter, out)
    ensures forall i, j :: 0 <= i < j < |out| ==> Precedes(out[i].uri, out[j].uri)
    ensures forall e :: e in out <==> IsKept(xs, filter, e)
  {
    hide Precedes, IsKept;
    var filtered: Extensions := [];
    if filter != DiscardEncrypted {
      filtered := Pass(filtered, xs, true);
    }
    ghost var encrypted := filtered;
    if filter != RequireEncrypted {
      filtered := Pass(filtered, xs, false);
    }
    PassesSelect(xs, filter, encrypted, filtered);
    out := Sort(filtered);
    CanonicalByPosition(xs, filter, out);
  }

  lemma PassesSelect(xs: Extensions, filter: Filter, encrypted: Extensions, filtered: Extensions)
    requires filter != DiscardEncrypted ==> PassDone([], xs, true, encrypted)
    requires filter == DiscardEncrypted ==> encrypted == []
    requires filter != RequireEncrypted ==> PassDone(encrypted, xs, false, filtered)
    requires filter == RequireEncrypted ==> filtered == encrypted
    ensures UniqueUris(filtered)
    ensures forall e :: e in filtered <==> Selected(xs, e.uri, filter) == Some(e)
  {
    forall e: RtpExtension
      ensures e in filtered <==> Selected(xs, e.uri, filter) == Some(e)
    {
      var f := First(xs, e.uri, true);
      FirstIsMember(xs, e.uri, true);
      FirstIsMember(xs, e.uri, false);
      if filter != DiscardEncrypted && f.Some? {
        assert First(xs, f.value.uri, true) == f;
        assert f.value in encrypted;
      }
    }
  }

  // ---------------------------------------------------------------------
  // The output is canonical
  // ---------------------------------------------------------------------

  /** Ascending lists with the same members are the same list. */
  lemma {:induction false} AscendingUnique(a: Extensions, b: Extensions)
    requires Ascending(a) && Ascending(b)
    requires forall e :: e in a <==> e in b
    ensures a == b
    decreases |a|
  {
    assert a != [] ==> a[0] in a;
    assert b != [] ==> b[0] in b;
    if a != [] {
      HeadIsLeast(a, b);
      assert a == [a[0]] + a[1..] && b == [b[0]] + b[1..];
      forall e
        ensures e in a[1..] <==> e in b[1..]
      {
        HeadNotInTail(a);
        HeadNotInTail(b);
        assert e in a <==> e == a[0] || e in a[1..];
        assert e in b <==> e == b[0] || e in b[1..];
      }
      AscendingUnique(a[1..], b[1..]);
    }
  }

  lemma HeadNotInTail(a: Extensions)
    requires Ascending(a) && a != []
    ensures a[0] !in a[1..]
  {
    BeforeTrichotomy(a[0].uri, a[0].uri);
    forall i | 0 <= i < |a[1..]|
      ensures a[1..][i] != a[0]
    {
      assert Before(a[0].uri, a[i + 1].uri);
    }
  }

  lemma HeadIsLeast(a: Extensions, b: Extensions)
    requires Ascending(a) && Ascending(b) && a != [] && b != []
    requires a[0] in b && b[0] in a
    ensures a[0] == b[0]
  {
    var i :| 0 <= i < |a| && a[i] == b[0];
    var j :| 0 <= j < |b| && b[j] == a[0];
    if i > 0 && j > 0 {
      BeforeTrichotomy(a[0].uri, a[i].uri);
      assert false;
    }
  }

  /** Any two ways of meeting the specification give the same list, so the sort algorithm
      does not matter. */
  lemma CanonicalUnique(xs: Extensions, filter: Filter, a: Extensions, b: Extensions)
    requires Canonical(xs, filter, a) && Canonical(xs, filter, b)
    ensures a == b
  {
    AscendingUnique(a, b);
  }

  lemma {:induction false} MemberIsFirst(xs: Extensions, e: RtpExtension)
    requires Distinct(xs)
    ensures First(xs, e.uri, e.encrypt) == Some(e) <==> e in xs
    decreases |xs|
  {
    FirstIsMember(xs, e.uri, e.encrypt);
    var f := First(xs, e.uri, e.encrypt);
    if e in xs && f.Some? {
      DistinctMemberUnique(xs, e, f.value);
    }
  }

  /** Distinctness is a property of the multiset. */
  lemma PermutedDistinct(xs: Extensions, ys: Extensions)
    requires Distinct(xs) && multiset(xs) == multiset(ys)
    ensures Distinct(ys)
  {
    forall i, j | 0 <= i < j < |ys| && ys[i].uri == ys[j].uri && ys[i].encrypt == ys[j].encrypt
      ensures false
    {
      assert ys[i] in multiset(ys) && ys[j] in multiset(ys);
      DistinctMemberUnique(xs, ys[i], ys[j]);
      TwicePresent(ys, i, j);
      OnceAtMost(xs, ys[i]);
    }
  }

  lemma TwicePresent(ys: Extensions, i: nat, j: nat)
    requires i < j < |ys| && ys[i] == ys[j]
    ensures multiset(ys)[ys[i]] >= 2
  {
    assert ys == ys[..j] + ys[j..];
    assert ys[i] in ys[..j] && ys[i] in ys[j..];
  }

  lemma {:induction false} OnceAtMost(xs: Extensions, e: RtpExtension)
    requires Distinct(xs)
    ensures multiset(xs)[e] <= 1
    decreases |xs|
  {
    if xs != [] {
      var n := |xs| - 1;
      OnceAtMost(xs[..n], e);
      assert xs == xs[..n] + [xs[n]];
      if xs[n] == e {
        assert e !in xs[..n];
      }
    }
  }

  lemma FirstOfSameMembers(xs: Extensions, ys: Extensions, uri: string, encrypt: bool)
    requires Distinct(xs) && Distinct(ys)
    requires forall e :: e in xs <==> e in ys
    ensures First(xs, uri, encrypt) == First(ys, uri, encrypt)
  {
    FirstIsMember(xs, uri, encrypt);
    FirstIsMember(ys, uri, encrypt);
    var f := First(xs, uri, encrypt);
    if f.Some? {
      MemberIsFirst(ys, f.value);
    }
  }

  /** Reordering an input in which no two entries share URI and encryption does not change
      the output. */
  lemma OrderDoesNotMatter(xs: Extensions, ys: Extensions, filter: Filter, a: Extensions, b: Extensions)
    requires Distinct(xs) && multiset(xs) == multiset(ys)
    requires Canonical(xs, filter, a) && Canonical(ys, filter, b)
    ensures a == b
  {
    PermutedDistinct(xs, ys);
    forall e: RtpExtension
      ensures e in xs <==> e in ys
    {
      assert e in multiset(xs) <==> e in multiset(ys);
    }
    forall e: RtpExtension
      ensures Selected(xs, e.uri, filter) == Selected(ys, e.uri, filter)
    {
      FirstOfSameMembers(xs, ys, e.uri, true);
      FirstOfSameMembers(xs, ys, e.uri, false);
    }
    AscendingUnique(a, b);
  }

  lemma AscendingIsUnique(xs: Extensions)
    requires Ascending(xs)
    ensures UniqueUris(xs) && Distinct(xs)
  {
    forall i, j | 0 <= i < j < |xs|
      ensures xs[i].uri != xs[j].uri
    {
      BeforeTrichotomy(xs[i].uri, xs[j].uri);
    }
  }

  /** The output, looked up by URI under any filter that would keep it, is the selected entry. */
  lemma OutputSelects(xs: Extensions, filter: Filter, out: Extensions, uri: string)
    requires Canonical(xs, filter, out)
    ensures Selected(out, uri, filter) == Selected(xs, uri, filter)
  {
    AscendingIsUnique(out);
    SelectedIsMember(out, uri, filter);
    SelectedIsMember(xs, uri, filter);
    FirstIsMember(out, uri, true);
    FirstIsMember(out, uri, false);
    FirstIsMember(xs, uri, true);
    FirstIsMember(xs, uri, false);
    var s := Selected(xs, uri, filter);
    if s.Some? {
      assert s.value in out;
      MemberIsFirst(out, s.value);
      assert forall e :: e in out && e.uri == uri ==> e == s.value;
    } else {
      assert forall e :: e in out ==> e.uri != uri;
    }
  }

  /** Deduplicating an already deduplicated list changes nothing. */
  lemma Idempotent(xs: Extensions, filter: Filter, once: Extensions, twice: Extensions)
    requires Canonical(xs, filter, once) && Canonical(once, filter, twice)
    ensures twice == once
  {
    forall e: RtpExtension
      ensures Selected(once, e.uri, filter) == Selected(xs, e.uri, filter)
    {
      OutputSelects(xs, filter, once, e.uri);
    }
    AscendingUnique(once, twice);
  }
}
