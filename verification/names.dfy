/** Name normalisation (utils.py): domain names get a trailing dot, record
    names are qualified under their zone. */
module Names {

  /** Python's `str.endswith`: `suffix` is a (possibly empty) tail of `s`. */
  predicate EndsWith(s: string, suffix: string) {
    |suffix| <= |s| && s[|s| - |suffix|..] == suffix
  }

  predicate HasTrailingDot(s: string) {
    |s| > 0 && s[|s| - 1] == '.'
  }

  /** The two ways of saying "ends in a dot" agree. */
  lemma EndsWithDot(s: string)
    ensures EndsWith(s, ".") <==> HasTrailingDot(s)
  {
    if HasTrailingDot(s) {
      assert s[|s| - 1..] == [s[|s| - 1]];
    }
    if EndsWith(s, ".") {
      assert s[|s| - 1..][0] == '.';
    }
  }

  /** `normalize_domain`: append a dot unless the name already ends in one. */
  function NormalizeDomain(name: string): (r: string)
    ensures HasTrailingDot(r)
    ensures HasTrailingDot(name) ==> r == name
    ensures !HasTrailingDot(name) ==> r == name + "."
  {
    if !HasTrailingDot(name) then name + "." else name
  }

  lemma NormalizeDomainIdempotent(name: string)
    ensures NormalizeDomain(NormalizeDomain(name)) == NormalizeDomain(name)
  {
  }

  /** Python's `s.rstrip('.')`: the longest prefix of `s` that does not end
      in a dot; everything cut off is dots. */
  function StripTrailingDots(s: string): (r: string)
    ensures r <= s
    ensures !HasTrailingDot(r)
    ensures forall i :: |r| <= i < |s| ==> s[i] == '.'
    decreases |s|
  {
    if HasTrailingDot(s) then StripTrailingDots(s[..|s| - 1]) else s
  }

  /** The bare zone name a record name is qualified under. */
  function Zone(domainName: string): string {
    StripTrailingDots(domainName)
  }

  /** `normalize_record_name`: `@` is the zone apex; any other name is
      qualified under the zone unless it already ends with the zone as a
      plain string (not on a label boundary), then given a trailing dot. */
  function NormalizeRecordName(domainName: string, recordName: string): (r: string)
    ensures HasTrailingDot(r)
    ensures recordName == "@" ==> r == NormalizeDomain(domainName)
    ensures recordName != "@" ==> EndsWith(r, Zone(domainName) + ".")
  {
    if recordName == "@" then NormalizeDomain(domainName)
    else
      var zone := Zone(domainName);
      var qualified := if !EndsWith(recordName, zone) then recordName + "." + zone else recordName;
      QualifiedEndsWithZone(recordName, zone, qualified);
      NormalizeDomain(qualified)
  }

  lemma QualifiedEndsWithZone(recordName: string, zone: string, qualified: string)
    requires !HasTrailingDot(zone)
    requires qualified == if !EndsWith(recordName, zone) then recordName + "." + zone else recordName
    ensures EndsWith(NormalizeDomain(qualified), zone + ".")
  {
    var r := NormalizeDomain(qualified);
    assert EndsWith(qualified, zone);
    if zone == "" {
      EndsWithDot(r);
    } else {
      assert qualified[|qualified| - 1] == zone[|zone| - 1];
      assert r == qualified + ".";
      assert r[|r| - |zone + "."|..] == qualified[|qualified| - |zone|..] + ".";
    }
  }

  /** The apex `@` resolves to the normalised zone itself. */
  lemma ApexIsNormalizedDomain(domainName: string)
    ensures NormalizeRecordName(domainName, "@") == NormalizeDomain(domainName)
  {
  }

  /** A name already ending with the bare zone (as a string) only gains a
      trailing dot. */
  lemma SuffixNameOnlyGainsDot(domainName: string, recordName: string)
    requires recordName != "@"
    requires EndsWith(recordName, Zone(domainName))
    ensures NormalizeRecordName(domainName, recordName) == NormalizeDomain(recordName)
  {
  }

  /** Any other name is qualified as `name.zone.`. */
  lemma OtherNameIsQualified(domainName: string, recordName: string)
    requires recordName != "@"
    requires !EndsWith(recordName, Zone(domainName))
    ensures NormalizeRecordName(domainName, recordName) == recordName + "." + Zone(domainName) + "."
  {
    var zone := Zone(domainName);
    var q := recordName + "." + zone;
    assert zone != "" by {
      assert recordName[|recordName|..] == "";
    }
    assert q[|q| - 1] == zone[|zone| - 1];
  }

  /** With an empty or all-dot domain name the bare zone is empty, so every
      name other than `@` merely gains a trailing dot. */
  lemma EmptyZoneOnlyAddsDot(domainName: string, recordName: string)
    requires forall i :: 0 <= i < |domainName| ==> domainName[i] == '.'
    requires recordName != "@"
    ensures Zone(domainName) == ""
    ensures NormalizeRecordName(domainName, recordName) == NormalizeDomain(recordName)
  {
    assert recordName[|recordName| - 0..] == "";
  }

  /** Normalising a record name twice changes it again exactly when the bare
      zone is non-empty: the once-normalised name ends in a dot, so the plain
      suffix test fails and the zone is appended a second time. */
  lemma {:induction false} RecordNameIdempotentIffEmptyZone(domainName: string, recordName: string)
    ensures var once := NormalizeRecordName(domainName, recordName);
      NormalizeRecordName(domainName, once) == once <==> Zone(domainName) == ""
  {
    var zone := Zone(domainName);
    var once := NormalizeRecordName(domainName, recordName);
    assert once != "@" by {
      assert once[|once| - 1] == '.';
    }
    if zone == "" {
      assert EndsWith(once, zone) by {
        assert once[|once| - 0..] == "";
      }
      assert NormalizeRecordName(domainName, once) == NormalizeDomain(once);
    } else {
      assert !EndsWith(once, zone);
      OtherNameIsQualified(domainName, once);
      assert |NormalizeRecordName(domainName, once)| > |once|;
    }
  }

  lemma ExampleZone()
    ensures Zone("example.com.") == "example.com"
    ensures Zone("example.com") == "example.com"
  {
    var d := "example.com.";
    assert HasTrailingDot(d);
    assert d[..|d| - 1] == "example.com";
  }

  /** The concrete witness of non-idempotence: an already normalised name
      gets the zone appended a second time. */
  lemma NotIdempotentWitness()
    ensures NormalizeRecordName("example.com.", "test.example.com.") == "test.example.com..example.com."
  {
    ExampleZone();
    var name := "test.example.com.";
    assert !EndsWith(name, "example.com") by {
      assert name[|name| - 11..][10] == '.';
    }
    OtherNameIsQualified("example.com.", name);
  }

  /** Normalising `test` under `example.com.` twice differs from normalising
      it once. */
  lemma NormalizingTwiceDiffers()
    ensures NormalizeRecordName("example.com.", NormalizeRecordName("example.com.", "test"))
         != NormalizeRecordName("example.com.", "test")
  {
    ExampleZone();
    RecordNameIdempotentIffEmptyZone("example.com.", "test");
  }

  /** The apex of `example.com` is `example.com.`. */
  lemma ApexExample()
    ensures NormalizeRecordName("example.com", "@") == "example.com."
  {
  }

  /** A bare label is qualified: `test` becomes `test.example.com.`. */
  lemma LabelExample()
    ensures NormalizeRecordName("example.com", "test") == "test.example.com."
  {
    ExampleZone();
    assert !EndsWith("test", "example.com");
    OtherNameIsQualified("example.com", "test");
  }

  /** An already qualified name only gains its trailing dot, and so does a
      name that merely ends with the zone's text (`notexample.com`): the
      suffix test is not aligned on label boundaries. */
  lemma QualifiedExamples()
    ensures NormalizeRecordName("example.com.", "test.example.com") == "test.example.com."
    ensures NormalizeRecordName("example.com", "notexample.com") == "notexample.com."
  {
    ExampleZone();
    var a := "test.example.com";
    assert a[|a| - 11..] == "example.com";
    SuffixNameOnlyGainsDot("example.com.", a);
    var b := "notexample.com";
    assert b[|b| - 11..] == "example.com";
    SuffixNameOnlyGainsDot("example.com", b);
  }
}
