/** Resolution of an A-share stock code to the venue-qualified symbol the
    charting widget expects (`get_tradingview_symbol`). */
module Symbols {
  import opened Wrappers

  /** The two exchanges a symbol can be qualified with. */
  datatype Venue = Shanghai | Shenzhen

  /** Exchange tag put in front of the code. */
  function Tag(v: Venue): string {
    match v
    case Shanghai => "SSE:"
    case Shenzhen => "SZSE:"
  }

  /** Prefixes the resolver tries for the Shanghai exchange, in its order. */
  const ShanghaiPrefixes: seq<string> := ["600", "601", "603", "605", "688"]

  /** Prefixes the resolver tries for the Shenzhen exchange, in its order. */
  const ShenzhenPrefixes: seq<string> := ["000", "001", "002", "003", "300", "301"]

  predicate StartsWith(s: string, p: string) {
    |p| <= |s| && s[..|p|] == p
  }

  /** `str.startswith` given a tuple: true when any of the prefixes matches. */
  predicate StartsWithAny(s: string, ps: seq<string>)
    decreases |ps|
  {
    |ps| > 0 && (StartsWith(s, ps[0]) || StartsWithAny(s, ps[1..]))
  }

  /** The resolver: Shanghai prefixes first, then Shenzhen prefixes,
      Shanghai for everything else. The code itself is never altered. */
  function TradingViewSymbol(code: string): (r: string)
    ensures r == Tag(Shanghai) + code || r == Tag(Shenzhen) + code
  {
    if StartsWithAny(code, ShanghaiPrefixes) then Tag(Shanghai) + code
    else if StartsWithAny(code, ShenzhenPrefixes) then Tag(Shenzhen) + code
    else Tag(Shanghai) + code
  }

  // ---------------------------------------------------------------------
  // Reference classification by board (the first three characters)

  /** Three-character boards listed on the Shanghai exchange. */
  const ShanghaiBoards: set<string> := {"600", "601", "603", "605", "688"}

  /** Three-character boards listed on the Shenzhen exchange. */
  const ShenzhenBoards: set<string> := {"000", "001", "002", "003", "300", "301"}

  /** The board of a code, when the code has at least three characters. */
  function Board(code: string): (b: Option<string>)
    ensures b.Some? <==> |code| >= 3
    ensures b.Some? ==> |b.value| == 3 && StartsWith(code, b.value)
  {
    if |code| >= 3 then Some(code[..3]) else None
  }

  /** The exchange a code belongs to: Shenzhen exactly for the Shenzhen
      boards, Shanghai for every other string. */
  function ListingVenue(code: string): Venue {
    match Board(code)
    case Some(b) => if b in ShenzhenBoards then Shenzhen else Shanghai
    case None => Shanghai
  }

  /** A prefix test over three-character prefixes is a test of the
      string's first three characters. */
  lemma {:induction false} StartsWithAnyBoard(s: string, ps: seq<string>)
    requires forall i :: 0 <= i < |ps| ==> |ps[i]| == 3
    ensures StartsWithAny(s, ps) <==> |s| >= 3 && s[..3] in ps
    decreases |ps|
  {
    if |ps| > 0 {
      StartsWithAnyBoard(s, ps[1..]);
      assert |s| >= 3 ==> (s[..3] in ps <==> s[..3] == ps[0] || s[..3] in ps[1..]);
    }
  }

  /** The three cases of the resolver stated by board. */
  lemma ResolverByBoard(code: string)
    ensures Board(code).Some? && Board(code).value in ShanghaiBoards
      ==> TradingViewSymbol(code) == "SSE:" + code
    ensures Board(code).Some? && Board(code).value in ShenzhenBoards
      ==> TradingViewSymbol(code) == "SZSE:" + code
    ensures !(Board(code).Some? && Board(code).value in ShenzhenBoards)
      ==> TradingViewSymbol(code) == "SSE:" + code
  {
    StartsWithAnyBoard(code, ShanghaiPrefixes);
    StartsWithAnyBoard(code, ShenzhenPrefixes);
  }

  /** The resolver agrees with the reference classification on every string. */
  lemma ResolverMatchesVenue(code: string)
    ensures TradingViewSymbol(code) == Tag(ListingVenue(code)) + code
  {
    ResolverByBoard(code);
  }

  /** No code is matched by both prefix lists, so the order in which the
      resolver tests them never decides the result. */
  lemma PrefixListsDisjoint(code: string)
    ensures !(StartsWithAny(code, ShanghaiPrefixes) && StartsWithAny(code, ShenzhenPrefixes))
  {
    StartsWithAnyBoard(code, ShanghaiPrefixes);
    StartsWithAnyBoard(code, ShenzhenPrefixes);
  }

  // ---------------------------------------------------------------------
  // Inverse: splitting a qualified symbol back into exchange and code

  /** Splits a venue-qualified symbol into its exchange and its code. */
  function ParseSymbol(sym: string): Option<(Venue, string)> {
    if StartsWith(sym, Tag(Shenzhen)) then Some((Shenzhen, sym[|Tag(Shenzhen)|..]))
    else if StartsWith(sym, Tag(Shanghai)) then Some((Shanghai, sym[|Tag(Shanghai)|..]))
    else None
  }

  /** Resolving and then splitting gives back the code unchanged together
      with its listing exchange. */
  lemma ResolverRoundTrip(code: string)
    ensures ParseSymbol(TradingViewSymbol(code)) == Some((ListingVenue(code), code))
  {
    // The tags differ in their second character, so only one of them
    // matches; what follows it is the code.
    ResolverMatchesVenue(code);
    var sym := TradingViewSymbol(code);
    if ListingVenue(code) == Shanghai {
      assert sym[1] == 'S';
    }
    assert sym[|Tag(ListingVenue(code))|..] == code;
  }

  /** A Shanghai main-board code and a STAR-market code. */
  lemma ShanghaiExamples()
    ensures TradingViewSymbol("600519") == "SSE:600519"
    ensures TradingViewSymbol("688981") == "SSE:688981"
  {
    assert "600519"[..3] == "600";
    ResolverByBoard("600519");
    assert "688981"[..3] == "688";
    ResolverByBoard("688981");
  }

  /** A Shenzhen main-board code and a ChiNext code. */
  lemma ShenzhenExamples()
    ensures TradingViewSymbol("000001") == "SZSE:000001"
    ensures TradingViewSymbol("300750") == "SZSE:300750"
  {
    assert "000001"[..3] == "000";
    ResolverByBoard("000001");
    assert "300750"[..3] == "300";
    ResolverByBoard("300750");
  }

  /** Codes of no listed board, too short, or empty fall back to Shanghai. */
  lemma FallbackExamples()
    ensures TradingViewSymbol("830799") == "SSE:830799"
    ensures TradingViewSymbol("60") == "SSE:60"
    ensures TradingViewSymbol("") == "SSE:"
  {
    assert "830799"[..3] == "830";
    ResolverByBoard("830799");
    ResolverByBoard("60");
    ResolverByBoard("");
  }
}
