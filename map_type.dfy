/**
 * Resolution of the optional `mapTypeId` setting into one of Kakao's three
 * base-map kinds, compared without regard to letter case.
 */
module MapTypes {
  import opened Wrappers

  /** `kakao.maps.MapTypeId`: satellite imagery, the street map, or both layered. */
  datatype MapTypeId = SKYVIEW | ROADMAP | HYBRID

  /** ASCII upper-casing of one character. */
  function UpperChar(c: char): (u: char)
    ensures !('a' <= u <= 'z')
    ensures u == c || ('a' <= c <= 'z' && u as int == c as int - 32 && 'A' <= u <= 'Z')
    ensures 'a' <= c <= 'z' ==> u != c
  {
    if 'a' <= c <= 'z' then (c as int - 32) as char else c
  }

  /** `String.prototype.toUpperCase`, restricted to ASCII letters. */
  function ToUpperAscii(s: string): (u: string)
    ensures |u| == |s|
    ensures forall i :: 0 <= i < |s| ==> u[i] == UpperChar(s[i])
  {
    if s == [] then [] else [UpperChar(s[0])] + ToUpperAscii(s[1..])
  }

  /** Two strings that agree letter by letter once upper-cased. */
  predicate EqualsIgnoringCase(s: string, t: string)
  {
    |s| == |t| && forall i :: 0 <= i < |s| ==> UpperChar(s[i]) == UpperChar(t[i])
  }

  /** A string with no lower-case ASCII letter. */
  predicate IsUpperCase(s: string)
  {
    forall i :: 0 <= i < |s| ==> !('a' <= s[i] <= 'z')
  }

  /** Upper-casing makes two strings equal exactly when they differ only in case. */
  lemma ToUpperAsciiEqual(s: string, t: string)
    ensures ToUpperAscii(s) == ToUpperAscii(t) <==> EqualsIgnoringCase(s, t)
  {
    if EqualsIgnoringCase(s, t) {
      assert forall i :: 0 <= i < |s| ==> ToUpperAscii(s)[i] == ToUpperAscii(t)[i];
    }
    if ToUpperAscii(s) == ToUpperAscii(t) {
      assert forall i :: 0 <= i < |s| ==> UpperChar(s[i]) == ToUpperAscii(t)[i];
    }
  }

  /** Upper-casing leaves a string without lower-case letters as it is. */
  lemma ToUpperAsciiOfUpperCase(s: string)
    requires IsUpperCase(s)
    ensures ToUpperAscii(s) == s
  {
    assert forall i :: 0 <= i < |s| ==> ToUpperAscii(s)[i] == s[i];
  }

  /** Upper-casing twice is upper-casing once. */
  lemma ToUpperAsciiIdempotent(s: string)
    ensures ToUpperAscii(ToUpperAscii(s)) == ToUpperAscii(s)
  {
    var u := ToUpperAscii(s);
    assert IsUpperCase(u);
    ToUpperAsciiOfUpperCase(u);
  }

  /**
   * `kakaoMapTypeFromString(mapTypeId)`: an absent or empty setting gives
   * SKYVIEW; otherwise the upper-cased setting selects ROADMAP or HYBRID, and
   * anything else falls back to SKYVIEW. The contract describes the result
   * without upper-casing: ROADMAP exactly for the spellings of "roadmap" in
   * any mix of cases, HYBRID exactly for those of "hybrid", and SKYVIEW for
   * everything else, including no setting at all.
   */
  function MapTypeFromString(mapTypeId: Option<string>): (t: MapTypeId)
    ensures t == ROADMAP <==> mapTypeId.Some? && EqualsIgnoringCase(mapTypeId.value, "ROADMAP")
    ensures t == HYBRID <==> mapTypeId.Some? && EqualsIgnoringCase(mapTypeId.value, "HYBRID")
    ensures t == SKYVIEW <==>
              mapTypeId.None? ||
              (!EqualsIgnoringCase(mapTypeId.value, "ROADMAP") && !EqualsIgnoringCase(mapTypeId.value, "HYBRID"))
  {
    if mapTypeId.None? || mapTypeId.value == "" then SKYVIEW
    else
      var key := ToUpperAscii(mapTypeId.value);
      ToUpperAsciiOfUpperCase("ROADMAP");
      ToUpperAsciiOfUpperCase("HYBRID");
      ToUpperAsciiEqual(mapTypeId.value, "ROADMAP");
      ToUpperAsciiEqual(mapTypeId.value, "HYBRID");
      if key == "ROADMAP" then ROADMAP
      else if key == "HYBRID" then HYBRID
      else SKYVIEW
  }

  /** The resolution does not depend on letter case. */
  lemma MapTypeFromStringIgnoresCase(s: string, t: string)
    requires EqualsIgnoringCase(s, t)
    ensures MapTypeFromString(Some(s)) == MapTypeFromString(Some(t))
  {
    ToUpperAsciiEqual(s, t);
  }

  /** Worked values of the resolution for spellings of "roadmap". */
  lemma MapTypeFromStringRoadmapExamples()
    ensures MapTypeFromString(Some("roadmap")) == ROADMAP && MapTypeFromString(Some("RoadMap")) == ROADMAP
  {
    assert EqualsIgnoringCase("roadmap", "ROADMAP");
    assert EqualsIgnoringCase("RoadMap", "ROADMAP");
  }

  /** Worked values of the resolution for spellings of "hybrid". */
  lemma MapTypeFromStringHybridExamples()
    ensures MapTypeFromString(Some("HYBRID")) == HYBRID && MapTypeFromString(Some("hybrid")) == HYBRID
  {
    assert EqualsIgnoringCase("HYBRID", "HYBRID");
    assert EqualsIgnoringCase("hybrid", "HYBRID");
  }

  /** Worked values of the resolution that fall back to satellite imagery. */
  lemma MapTypeFromStringFallbackExamples()
    ensures MapTypeFromString(None) == SKYVIEW && MapTypeFromString(Some("")) == SKYVIEW
    ensures MapTypeFromString(Some("xyz")) == SKYVIEW && MapTypeFromString(Some("skyview")) == SKYVIEW
  {
    assert UpperChar("skyview"[0]) != UpperChar("ROADMAP"[0]);
    assert UpperChar("skyview"[0]) != UpperChar("HYBRID"[0]);
  }
}
