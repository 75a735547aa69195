/**
 * The two helpers of `Utils` that the controller's logic depends on: the
 * random decimal stream id and the search for a dotted IPv4 address.
 * The random source, the UUID generator, the clock and the path helper are
 * not part of this module.
 */
module Utils {
  import opened Wrappers
  import opened Decimal

  // ---------------------------------------------------------------------
  // Stream ids
  // ---------------------------------------------------------------------

  /** A stream id has this many decimal digits. */
  const StreamIdLength: nat := 18

  /** The digit written at position `i` for the value `draw` of `rand()`:
      1..9 for the first position, 0..9 for the others. */
  function StreamDigit(i: nat, draw: nat): (c: char)
    ensures IsDigit(c)
    ensures i == 0 ==> c != '0'
  {
    if i == 0 then DigitChar(draw % 9 + 1) else DigitChar(draw % 10)
  }

  /** The id that `getStreamID` builds from the successive values of `rand()`. */
  function StreamIdOf(draws: seq<nat>): (id: string)
    requires |draws| >= StreamIdLength
  {
    seq(StreamIdLength, i requires 0 <= i < StreamIdLength => StreamDigit(i, draws[i]))
  }

  /** `getStreamID`: eighteen digits appended to a stream, the first one never
      zero.  `draws` are the values `rand()` returns, in call order. */
  method GetStreamId(draws: seq<nat>) returns (id: string)
    requires |draws| >= StreamIdLength
    ensures |id| == StreamIdLength
    ensures Canonical(id)
    ensures id == StreamIdOf(draws)
  {
    id := "";
    var i := 0;
    while i < StreamIdLength
      invariant 0 <= i <= StreamIdLength
      invariant id == StreamIdOf(draws)[..i]
    {
      if i == 0 {
        id := id + [DigitChar(draws[i] % 9 + 1)];
      } else {
        id := id + [DigitChar(draws[i] % 10)];
      }
      i := i + 1;
    }
    assert id[0] == StreamDigit(0, draws[0]);
  }

  /** The number a stream id denotes lies in [10^17, 10^18): it has no
      leading zero and exactly eighteen digits. */
  lemma StreamIdRange(draws: seq<nat>)
    requires |draws| >= StreamIdLength
    ensures AllDigits(StreamIdOf(draws))
    ensures Pow10(17) <= Value(StreamIdOf(draws)) < Pow10(18)
  {
    var id := StreamIdOf(draws);
    assert id[0] == StreamDigit(0, draws[0]);
    ValueBounds(id);
  }

  // ---------------------------------------------------------------------
  // IPv4 address search
  // ---------------------------------------------------------------------

  /** `s[a..b]` is one octet of the address pattern: one to three digits,
      no leading zero, 1..254 for the first and last octet (`edge`), 0..255
      for the two middle ones. */
  predicate OctetAt(s: string, a: nat, b: nat, edge: bool)
  {
    && a < b <= |s| && b - a <= 3
    && (forall k :: a <= k < b ==> IsDigit(s[k]))
    && (b - a > 1 ==> s[a] != '0')
    && (if edge then 1 <= OctetValue(s, a, b) <= 254 else OctetValue(s, a, b) <= 255)
  }

  /** The number the one to three digits `s[a..b]` denote. */
  function OctetValue(s: string, a: nat, b: nat): nat
    requires a < b <= |s| && b - a <= 3
    requires forall k :: a <= k < b ==> IsDigit(s[k])
  {
    if b - a == 1 then DigitValue(s[a])
    else if b - a == 2 then 10 * DigitValue(s[a]) + DigitValue(s[a + 1])
    else 100 * DigitValue(s[a]) + 10 * DigitValue(s[a + 1]) + DigitValue(s[a + 2])
  }

  /** `s[i..k]` is an address `a.b.c.d` whose dots are at p1, p2 and p3. */
  predicate AddressAt(s: string, i: nat, p1: nat, p2: nat, p3: nat, k: nat)
  {
    && i <= p1 < p2 < p3 < k <= |s|
    && s[p1] == '.' && s[p2] == '.' && s[p3] == '.'
    && OctetAt(s, i, p1, true)
    && OctetAt(s, p1 + 1, p2, false)
    && OctetAt(s, p2 + 1, p3, false)
    && OctetAt(s, p3 + 1, k, true)
  }

  /** Some address of the pattern starts at index `j` of `s`. */
  ghost predicate MatchStartsAt(s: string, j: nat)
  {
    exists p1, p2, p3, k :: AddressAt(s, j, p1, p2, p3, k)
  }

  /** The end of the digit run that starts at `i`. */
  function RunEnd(s: string, i: nat): (e: nat)
    requires i <= |s|
    ensures i <= e <= |s|
    ensures forall k :: i <= k < e ==> IsDigit(s[k])
    ensures e < |s| ==> !IsDigit(s[e])
    decreases |s| - i
  {
    if i < |s| && IsDigit(s[i]) then RunEnd(s, i + 1) else i
  }

  /** A digit run followed by a non-digit ends exactly there. */
  lemma RunEndAt(s: string, i: nat, e: nat)
    requires i <= e < |s| && !IsDigit(s[e])
    requires forall k :: i <= k < e ==> IsDigit(s[k])
    ensures RunEnd(s, i) == e
  {
  }

  /** Length of the last octet the pattern takes at `j`.  The alternatives
      of the last group are tried longest first (three digits, then two,
      then one), so the pattern takes the longest valid octet; 0 when there
      is none. */
  function LastOctetLength(s: string, j: nat): (n: nat)
    requires j <= |s|
    ensures n <= 3 && j + n <= |s|
    ensures n > 0 ==> OctetAt(s, j, j + n, true)
    ensures forall e :: j + n < e <= j + 3 ==> !OctetAt(s, j, e, true)
  {
    if OctetAt(s, j, j + 3, true) then 3
    else if OctetAt(s, j, j + 2, true) then 2
    else if OctetAt(s, j, j + 1, true) then 1
    else 0
  }

  /** The position of the dot that closes a valid octet starting at `j`, if
      the digit run at `j` is such an octet and a dot follows it. */
  function OctetThenDot(s: string, j: nat, edge: bool): (r: Option<nat>)
    requires j <= |s|
    ensures r.Some? ==> r.value < |s| && s[r.value] == '.' && OctetAt(s, j, r.value, edge)
  {
    var p := RunEnd(s, j);
    if p < |s| && s[p] == '.' && OctetAt(s, j, p, edge) then Some(p) else None
  }

  /** A valid octet followed by a dot is the one `OctetThenDot` finds. */
  lemma OctetThenDotFinds(s: string, j: nat, edge: bool, p: nat)
    requires p < |s| && s[p] == '.' && OctetAt(s, j, p, edge)
    ensures OctetThenDot(s, j, edge) == Some(p)
  {
    RunEndAt(s, j, p);
  }

  /** The positions of a match: the three dots and the end. */
  datatype Match = Match(p1: nat, p2: nat, p3: nat, end: nat)

  /** The match the pattern finds when it starts at `i`.  Each of the first
      three octets must be followed by a dot, so it is the whole digit run at
      its position. */
  function MatchAt(s: string, i: nat): (r: Option<Match>)
    requires i <= |s|
    ensures r.Some? ==> AddressAt(s, i, r.value.p1, r.value.p2, r.value.p3, r.value.end)
  {
    match OctetThenDot(s, i, true)
    case None => None
    case Some(p1) =>
      match OctetThenDot(s, p1 + 1, false)
      case None => None
      case Some(p2) =>
        match OctetThenDot(s, p2 + 1, false)
        case None => None
        case Some(p3) =>
          var n := LastOctetLength(s, p3 + 1);
          if n == 0 then None else Some(Match(p1, p2, p3, p3 + 1 + n))
  }

  /** Every address starting at `i` is found there, and the matcher's end is
      the farthest one. */
  lemma MatchAtComplete(s: string, i: nat, p1: nat, p2: nat, p3: nat, k: nat)
    requires AddressAt(s, i, p1, p2, p3, k)
    ensures MatchAt(s, i).Some? && k <= MatchAt(s, i).value.end
  {
    OctetThenDotFinds(s, i, true, p1);
    OctetThenDotFinds(s, p1 + 1, false, p2);
    OctetThenDotFinds(s, p2 + 1, false, p3);
    assert OctetAt(s, p3 + 1, k, true);
  }

  /** The leftmost start at or after `i` where the pattern matches, with the
      match found there. */
  function SearchFrom(s: string, i: nat): (r: Option<(nat, Match)>)
    requires i <= |s|
    ensures r.Some? ==> i <= r.value.0 <= |s| && MatchAt(s, r.value.0) == Some(r.value.1)
    decreases |s| - i
  {
    match MatchAt(s, i)
    case Some(m) => Some((i, m))
    case None => if i == |s| then None else SearchFrom(s, i + 1)
  }

  /** `searchAddress`: the first match of the address pattern in `str`; on
      no match the result is false and `ip` is returned unchanged. */
  function SearchAddress(str: string, ip: string): (r: (bool, string))
    ensures !r.0 ==> r.1 == ip
    ensures r.0 ==> exists i, k :: 0 <= i <= k <= |str| && r.1 == str[i..k] && MatchAt(str, i).Some? && MatchAt(str, i).value.end == k
  {
    match SearchFrom(str, 0)
    case Some((i, m)) => (true, str[i..m.end])
    case None => (false, ip)
  }

  /** Where the matcher finds nothing, no address starts. */
  lemma NoMatchStartsAt(s: string, i: nat)
    requires i <= |s| && MatchAt(s, i).None?
    ensures !MatchStartsAt(s, i)
  {
    forall p1, p2, p3, k | AddressAt(s, i, p1, p2, p3, k) ensures false {
      MatchAtComplete(s, i, p1, p2, p3, k);
    }
  }

  /** No address starts between `i` and the start `SearchFrom` reports. */
  lemma {:induction false} SearchFromLeftmost(s: string, i: nat)
    requires i <= |s|
    ensures SearchFrom(s, i).None? ==> forall j :: i <= j <= |s| ==> !MatchStartsAt(s, j)
    ensures SearchFrom(s, i).Some? ==> forall j :: i <= j < SearchFrom(s, i).value.0 ==> !MatchStartsAt(s, j)
  {
    NothingBeforeStop(s, i);
    forall j | i <= j <= |s| && j < SearchStop(s, i) ensures !MatchStartsAt(s, j) {
      NoMatchStartsAt(s, j);
    }
  }

  /** Where the search from `i` stops: its reported start, or past the end. */
  function SearchStop(s: string, i: nat): nat
    requires i <= |s|
  {
    match SearchFrom(s, i)
    case Some((j, _)) => j
    case None => |s| + 1
  }

  lemma SearchSkips(s: string, i: nat)
    requires i < |s| && MatchAt(s, i).None?
    ensures SearchStop(s, i) == SearchStop(s, i + 1)
  {
  }

  /** The matcher finds nothing before the search stops. */
  lemma {:induction false} NothingBeforeStop(s: string, i: nat)
    requires i <= |s|
    ensures forall j :: i <= j <= |s| && j < SearchStop(s, i) ==> MatchAt(s, j).None?
    decreases |s| - i
  {
    if MatchAt(s, i).None? {
      if i < |s| {
        SearchSkips(s, i);
        NothingBeforeStop(s, i + 1);
      }
    }
  }

  /** When `searchAddress` fails no substring of `str` is an address, and
      `ip` keeps its value. */
  lemma SearchAddressMiss(str: string, ip: string)
    requires !SearchAddress(str, ip).0
    ensures SearchAddress(str, ip).1 == ip
    ensures forall j: nat, p1: nat, p2: nat, p3: nat, k: nat :: !AddressAt(str, j, p1, p2, p3, k)
  {
    SearchFromLeftmost(str, 0);
    forall j, p1, p2, p3, k | AddressAt(str, j, p1, p2, p3, k) ensures false {
      assert MatchStartsAt(str, j);
    }
  }

  /** When `searchAddress` succeeds, `ip` is the substring `str[i..k]`, an
      address `a.b.c.d`; no address starts before `i`, and every address
      starting at `i` ends at or before `k`. */
  lemma SearchAddressHit(str: string, ip: string)
    requires SearchAddress(str, ip).0
    ensures exists i: nat, p1: nat, p2: nat, p3: nat, k: nat ::
      && AddressAt(str, i, p1, p2, p3, k)
      && SearchAddress(str, ip).1 == str[i..k]
      && (forall j :: 0 <= j < i ==> !MatchStartsAt(str, j))
      && (forall q1: nat, q2: nat, q3: nat, e: nat :: AddressAt(str, i, q1, q2, q3, e) ==> e <= k)
  {
    SearchFromLeftmost(str, 0);
    var (i, m) := SearchFrom(str, 0).value;
    forall q1: nat, q2: nat, q3: nat, e: nat | AddressAt(str, i, q1, q2, q3, e) ensures e <= m.end {
      MatchAtComplete(str, i, q1, q2, q3, e);
    }
    assert AddressAt(str, i, m.p1, m.p2, m.p3, m.end);
  }
}
