/** The content-delivery networks a stream can be requested from
    (Models/CDN.swift): each case has a raw URL suffix and a display title. */
module Cdn {
  import opened Common

  datatype CDN = Akamai | Level3

  function RawValue(c: CDN): (s: string)
    ensures |s| == 3
  {
    match c
    case Akamai => "akc"
    case Level3 => "l3c"
  }

  function Title(c: CDN): (s: string)
    ensures |s| > 0
  {
    match c
    case Akamai => "Akamai"
    case Level3 => "Level 3"
  }

  /** `CaseIterable.allCases`, in declaration order. */
  function AllCases(): (cs: seq<CDN>)
    ensures |cs| == 2 && cs[0] != cs[1]
  {
    [Akamai, Level3]
  }

  /** Every case is listed. */
  lemma AllCasesComplete(c: CDN)
    ensures c in AllCases()
  {
    match c
    case Akamai => assert AllCases()[0] == c;
    case Level3 => assert AllCases()[1] == c;
  }

  /** Swift's synthesised `CDN(rawValue:)`. */
  function FromRawValue(s: string): (r: Option<CDN>)
    ensures r.Some? ==> RawValue(r.value) == s
  {
    if s == "akc" then Some(Akamai)
    else if s == "l3c" then Some(Level3)
    else None
  }

  /** `allCases` lists every case exactly once, Akamai first. */
  lemma AllCasesInDeclarationOrder()
    ensures |AllCases()| == 2 && AllCases()[0] == Akamai && AllCases()[1] == Level3
    ensures forall i, j :: 0 <= i < j < |AllCases()| ==> AllCases()[i] != AllCases()[j]
  {
  }

  /** Raw values are distinct, so reading a raw value back recovers the case. */
  lemma RawValueRoundTrip(c: CDN, d: CDN)
    ensures FromRawValue(RawValue(c)) == Some(c)
    ensures RawValue(c) == RawValue(d) ==> c == d
  {
    match c
    case Akamai =>
    case Level3 =>
  }

  /** The URL suffixes and the titles shown in the CDN picker. */
  lemma Literals()
    ensures RawValue(Akamai) == "akc" && RawValue(Level3) == "l3c"
    ensures Title(Akamai) == "Akamai" && Title(Level3) == "Level 3"
  {
  }
}
