/**
 * Records exchanged with the relay service (ffrelay-api/src/types.rs): the
 * relay record with its derived `IsDomain` classification, and the creation
 * request with its builder defaults.
 */
module Types {
  import opened Wrappers

  /** Rust's `u64`, the type of relay ids and counters. */
  type u64 = x: int | 0 <= x < 0x1_0000_0000_0000_0000

  /** The domain of standard (randomly generated) relays. */
  const StandardDomain: string := "mozmail.com"

  /**
   * Rust's `str::split_once`: the text before and after the FIRST
   * occurrence of `sep`, or `None` when `sep` does not occur.
   */
  function SplitOnce(s: string, sep: char): (r: Option<(string, string)>)
    ensures r.None? <==> sep !in s
    ensures r.Some? ==> r.value.0 + [sep] + r.value.1 == s
    ensures r.Some? ==> sep !in r.value.0
    decreases |s|
  {
    if |s| == 0 then None
    else if s[0] == sep then Some(([], s[1..]))
    else
      match SplitOnce(s[1..], sep)
      case None => None
      case Some(parts) => Some(([s[0]] + parts.0, parts.1))
  }

  /** Any split at an occurrence of `sep` that has none before it is the one `SplitOnce` finds. */
  lemma {:induction false} SplitOnceAt(s: string, sep: char, before: string, after: string)
    requires s == before + [sep] + after
    requires sep !in before
    ensures SplitOnce(s, sep) == Some((before, after))
    decreases |before|
  {
    if before == [] {
      assert s[0] == sep && s[1..] == after;
    } else {
      assert s[0] == before[0] != sep;
      assert s[1..] == before[1..] + [sep] + after;
      SplitOnceAt(s[1..], sep, before[1..], after);
      assert [s[0]] + before[1..] == before;
    }
  }

  /** One relay (alias) as the service lists it. */
  datatype EmailRelay = EmailRelay(
    id: u64,
    fullAddress: string,
    description: string,
    numBlocked: u64,
    numForwarded: u64,
    numReplied: u64,
    numSpam: u64)
  {
    /**
     * A custom-domain relay: the text after the first '@' is not exactly
     * "mozmail.com". An address without '@' is a standard relay.
     */
    function IsDomain(): (b: bool)
      ensures b ==> '@' in fullAddress
    {
      match SplitOnce(fullAddress, '@')
      case Some(parts) => parts.1 != StandardDomain
      case None => false
    }
  }

  /** An address without '@' never classifies as a custom-domain relay. */
  lemma IsDomainWithoutAt(r: EmailRelay)
    requires '@' !in r.fullAddress
    ensures !r.IsDomain()
  {
  }

  /**
   * Splitting happens at the first '@': whatever follows it, further '@'
   * characters included, is compared with "mozmail.com" as a whole, exactly
   * and case-sensitively.
   */
  lemma IsDomainAtFirstAt(r: EmailRelay, local: string, domain: string)
    requires r.fullAddress == local + "@" + domain
    requires '@' !in local
    ensures r.IsDomain() <==> domain != StandardDomain
  {
    SplitOnceAt(r.fullAddress, '@', local, domain);
  }

  /** The first '@' of `a` is at `i`, and the text after it is not "mozmail.com". */
  predicate DomainSplitAt(a: string, i: int) {
    0 <= i < |a| && a[i] == '@' && '@' !in a[..i] && a[i + 1..] != StandardDomain
  }

  /** A custom-domain relay has a first '@' followed by something other than "mozmail.com". */
  lemma DomainHasSplit(r: EmailRelay)
    requires r.IsDomain()
    ensures exists i :: DomainSplitAt(r.fullAddress, i)
  {
    var a := r.fullAddress;
    var parts := SplitOnce(a, '@').value;
    var i := |parts.0|;
    assert a[..i] == parts.0 && a[i] == '@' && a[i + 1..] == parts.1;
    assert DomainSplitAt(a, i);
  }

  /** A relay that splits at its first '@' before something other than "mozmail.com" is a custom-domain relay. */
  lemma SplitMakesDomain(r: EmailRelay, i: int)
    requires DomainSplitAt(r.fullAddress, i)
    ensures r.IsDomain()
  {
    var a := r.fullAddress;
    assert a == a[..i] + "@" + a[i + 1..];
    IsDomainAtFirstAt(r, a[..i], a[i + 1..]);
  }

  /** Both directions of the classification, stated without `SplitOnce`. */
  lemma IsDomainIff(r: EmailRelay)
    ensures r.IsDomain() <==> exists i :: DomainSplitAt(r.fullAddress, i)
  {
    if r.IsDomain() {
      DomainHasSplit(r);
    } else {
      forall i | DomainSplitAt(r.fullAddress, i)
        ensures false
      {
        SplitMakesDomain(r, i);
      }
    }
  }

  /** The classification reads the address only: id, description and counters play no part. */
  lemma IsDomainReadsOnlyAddress(r1: EmailRelay, r2: EmailRelay)
    requires r1.fullAddress == r2.fullAddress
    ensures r1.IsDomain() == r2.IsDomain()
  {
  }

  /** A relay "local@mozmail.com" whose local part has no '@' is a standard relay. */
  lemma StandardAddressNotDomain(r: EmailRelay, local: string)
    requires r.fullAddress == local + "@" + StandardDomain
    requires '@' !in local
    ensures !r.IsDomain()
  {
    IsDomainAtFirstAt(r, local, StandardDomain);
  }

  /** The documented example: "test@mozmail.com" is a standard relay. */
  lemma IsDomainDocExample(r: EmailRelay)
    requires r.fullAddress == "test@mozmail.com"
    ensures !r.IsDomain()
  {
    assert r.fullAddress == "test" + "@" + StandardDomain;
    StandardAddressNotDomain(r, "test");
  }

  /** An address with two '@' whose text ends in "@mozmail.com" is still a custom-domain relay. */
  lemma IsDomainSecondAt(r: EmailRelay)
    requires r.fullAddress == "a@b@mozmail.com"
    ensures r.IsDomain()
  {
    assert r.fullAddress == "a" + "@" + "b@mozmail.com";
    IsDomainAtFirstAt(r, "a", "b@mozmail.com");
  }

  /** No suffix matching: a sub-domain of mozmail.com is a custom-domain relay. */
  lemma IsDomainSubdomain(r: EmailRelay)
    requires r.fullAddress == "x@sub.mozmail.com"
    ensures r.IsDomain()
  {
    assert r.fullAddress == "x" + "@" + "sub.mozmail.com";
    IsDomainAtFirstAt(r, "x", "sub.mozmail.com");
  }

  /** The comparison is case-sensitive. */
  lemma IsDomainCaseSensitive(r: EmailRelay)
    requires r.fullAddress == "x@MOZMAIL.com"
    ensures r.IsDomain()
  {
    assert r.fullAddress == "x" + "@" + "MOZMAIL.com";
    IsDomainAtFirstAt(r, "x", "MOZMAIL.com");
  }

  /** An address on any other domain is a custom-domain relay. */
  lemma IsDomainOtherDomain(r: EmailRelay)
    requires r.fullAddress == "xyz@custom.example"
    ensures r.IsDomain()
  {
    assert r.fullAddress == "xyz" + "@" + "custom.example";
    IsDomainAtFirstAt(r, "xyz", "custom.example");
  }

  /** The body of a creation request. */
  datatype RelayRequest = RelayRequest(description: string, enabled: bool, address: Option<string>)

  /**
   * The generated builder of `RelayRequest`: each field is set at most once,
   * `description` must be set before `Build`, `enabled` defaults to true and
   * `address` to absent.
   */
  datatype RelayRequestBuilder = RelayRequestBuilder(
    description: Option<string>,
    enabled: Option<bool>,
    address: Option<string>)
  {
    function Description(d: string): (b: RelayRequestBuilder)
      requires description.None?
      ensures b.description == Some(d) && b.enabled == enabled && b.address == address
    {
      this.(description := Some(d))
    }

    function Enabled(e: bool): (b: RelayRequestBuilder)
      requires enabled.None?
      ensures b.enabled == Some(e) && b.description == description && b.address == address
    {
      this.(enabled := Some(e))
    }

    function Address(a: string): (b: RelayRequestBuilder)
      requires address.None?
      ensures b.address == Some(a) && b.description == description && b.enabled == enabled
    {
      this.(address := Some(a))
    }

    /** The optional setter: `None` leaves the address absent. */
    function MaybeAddress(a: Option<string>): (b: RelayRequestBuilder)
      requires address.None?
      ensures b.address == a && b.description == description && b.enabled == enabled
    {
      this.(address := a)
    }

    function Build(): (r: RelayRequest)
      requires description.Some?
      ensures r.description == description.value
      ensures r.enabled <==> enabled != Some(false)
      ensures r.address == address
    {
      RelayRequest(description.value, if enabled.Some? then enabled.value else true, address)
    }
  }

  /** A builder with nothing set. */
  function Builder(): (b: RelayRequestBuilder)
    ensures b.description.None? && b.enabled.None? && b.address.None?
  {
    RelayRequestBuilder(None, None, None)
  }

  /** A request built from a description alone is enabled and has no address. */
  lemma BuildDefaults(d: string)
    ensures Builder().Description(d).Build() == RelayRequest(d, true, None)
  {
  }

  /** Every request the builder produces is determined by what was set, with the defaults for the rest. */
  lemma BuildSetsExplicitFields(d: string, e: bool, a: Option<string>)
    ensures Builder().Description(d).Enabled(e).MaybeAddress(a).Build() == RelayRequest(d, e, a)
    ensures Builder().Description(d).MaybeAddress(a).Build() == RelayRequest(d, true, a)
  {
  }
}
