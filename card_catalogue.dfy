/**
 * The credit-card catalogue: a static list of cards and the grouping of that
 * list by issuer that the card selector displays.
 *
 * The source folds the list with `reduce` into a JavaScript object that maps
 * each issuer to an array of its cards, creating the array the first time an
 * issuer is seen and pushing every card onto it. A JavaScript object keeps
 * its (non integer-like) keys in insertion order, so the accumulator is
 * modelled as `IssuerGroups`: the keys in insertion order plus the map from
 * key to group.
 */
module CardCatalogue {

  /** One catalogue record. */
  datatype CreditCard = CreditCard(issuer: string, name: string, id: string)

  /** The accumulator of the fold: an insertion-ordered record from issuer to cards. */
  datatype IssuerGroups = IssuerGroups(keys: seq<string>, groups: map<string, seq<CreditCard>>)

  /** No element occurs twice. */
  ghost predicate Distinct<T>(s: seq<T>) {
    forall i, j :: 0 <= i < j < |s| ==> s[i] != s[j]
  }

  /** Some card of `cards` has issuer `issuer`. */
  ghost predicate HasIssuer(cards: seq<CreditCard>, issuer: string) {
    exists c :: c in cards && c.issuer == issuer
  }

  /** The record keeps one key per group, each key once. */
  ghost predicate WellFormed(index: IssuerGroups) {
    && Distinct(index.keys)
    && (forall k :: k in index.keys <==> k in index.groups)
  }

  // ---------------------------------------------------------------------------
  // Specification of the fold
  // ---------------------------------------------------------------------------

  /** The cards of `cards` whose issuer is `issuer`, in catalogue order. */
  function CardsOf(cards: seq<CreditCard>, issuer: string): (r: seq<CreditCard>)
    ensures |r| <= |cards|
    ensures forall c :: c in r <==> c in cards && c.issuer == issuer
  {
    if cards == [] then []
    else
      var last := cards[|cards| - 1];
      var rest := CardsOf(cards[..|cards| - 1], issuer);
      SplitLast(cards);
      if last.issuer == issuer then rest + [last] else rest
  }

  /** The issuers of `cards`, each once, in order of first appearance. */
  function IssuersOf(cards: seq<CreditCard>): (r: seq<string>)
    ensures Distinct(r)
    ensures forall k :: k in r <==> HasIssuer(cards, k)
  {
    if cards == [] then []
    else
      var prefix := cards[..|cards| - 1];
      var seen := IssuersOf(prefix);
      var issuer := cards[|cards| - 1].issuer;
      SplitLast(cards);
      if issuer in seen then seen else seen + [issuer]
  }

  /** The dictionary the fold builds: each issuer to its cards. */
  function Grouping(cards: seq<CreditCard>): map<string, seq<CreditCard>> {
    map k | k in IssuersOf(cards) :: CardsOf(cards, k)
  }

  // ---------------------------------------------------------------------------
  // The fold itself
  // ---------------------------------------------------------------------------

  /**
   * The `reduce` that builds `cardsByIssuer`: one pass over the list, adding
   * an empty group for an issuer seen for the first time and then appending
   * the card to its issuer's group.
   */
  method GroupByIssuer(cards: seq<CreditCard>) returns (index: IssuerGroups)
    ensures index.keys == IssuersOf(cards)
    ensures index.groups == Grouping(cards)
    ensures WellFormed(index)
  {
    var keys: seq<string> := [];
    var groups: map<string, seq<CreditCard>> := map[];
    for i := 0 to |cards|
      invariant keys == IssuersOf(cards[..i])
      invariant groups == Grouping(cards[..i])
    {
      var card := cards[i];
      var issuer := card.issuer;
      PrefixSnoc(cards, i);
      FoldStep(cards[..i], card);
      if issuer !in groups {
        groups := groups[issuer := []];
        keys := keys + [issuer];
      }
      groups := groups[issuer := groups[issuer] + [card]];
    }
    assert cards[..|cards|] == cards;
    index := IssuerGroups(keys, groups);
  }

  /** A non-empty sequence is its front followed by its last element. */
  lemma SplitLast<T>(s: seq<T>)
    requires s != []
    ensures s == s[..|s| - 1] + [s[|s| - 1]]
  {
  }

  /** Appending a non-empty `b` is appending its front, then its last element. */
  lemma AppendSplitLast<T>(a: seq<T>, b: seq<T>)
    requires b != []
    ensures b == b[..|b| - 1] + [b[|b| - 1]]
    ensures a + b == (a + b[..|b| - 1]) + [b[|b| - 1]]
  {
  }

  /** Extending a prefix by one element. */
  lemma PrefixSnoc<T>(s: seq<T>, i: nat)
    requires i < |s|
    ensures s[..i + 1] == s[..i] + [s[i]]
  {
  }

  /** An issuer that is not a key has no cards. */
  lemma NoCardsOfAbsentIssuer(cards: seq<CreditCard>, issuer: string)
    requires issuer !in IssuersOf(cards)
    ensures CardsOf(cards, issuer) == []
  {
  }

  /** The body of the fold, applied to the specification of a prefix, gives the specification of the longer prefix. */
  lemma FoldStep(before: seq<CreditCard>, card: CreditCard)
    ensures var keys := IssuersOf(before);
            var groups := Grouping(before);
            var issuer := card.issuer;
            var keys' := if issuer !in groups then keys + [issuer] else keys;
            var groups' := if issuer !in groups then groups[issuer := []] else groups;
            && keys' == IssuersOf(before + [card])
            && groups'[issuer := groups'[issuer] + [card]] == Grouping(before + [card])
  {
    if card.issuer !in IssuersOf(before) {
      NoCardsOfAbsentIssuer(before, card.issuer);
    }
    GroupingSnoc(before, card);
  }

  /** One step of the fold, stated on the specification. */
  lemma GroupingSnoc(cards: seq<CreditCard>, card: CreditCard)
    ensures IssuersOf(cards + [card]) ==
      if card.issuer in IssuersOf(cards) then IssuersOf(cards) else IssuersOf(cards) + [card.issuer]
    ensures Grouping(cards + [card]) ==
      Grouping(cards)[card.issuer := CardsOf(cards, card.issuer) + [card]]
  {
    var s := cards + [card];
    assert s[..|s| - 1] == cards;
    forall k | k != card.issuer ensures CardsOf(s, k) == CardsOf(cards, k) { }
  }

  // ---------------------------------------------------------------------------
  // What the grouping promises
  // ---------------------------------------------------------------------------

  /**
   * The groups partition the catalogue by issuer: every card lies in the
   * group of its own issuer, no group holds a card of another issuer, a key
   * exists exactly when some card has that issuer, and no group is empty.
   */
  lemma GroupingPartitionsByIssuer(cards: seq<CreditCard>)
    ensures forall c :: c in cards ==> c.issuer in Grouping(cards) && c in Grouping(cards)[c.issuer]
    ensures forall k, c :: k in Grouping(cards) && c in Grouping(cards)[k] ==> c.issuer == k
    ensures forall k :: k in Grouping(cards) <==> HasIssuer(cards, k)
    ensures forall k :: k in Grouping(cards) ==> Grouping(cards)[k] != []
  {
    forall k | k in Grouping(cards) ensures Grouping(cards)[k] != [] {
      var c :| c in cards && c.issuer == k;
      assert c in CardsOf(cards, k);
    }
  }

  /** A group holds each card of its issuer exactly as often as the catalogue does. */
  lemma {:induction false} CardsOfMultiplicity(cards: seq<CreditCard>, issuer: string, c: CreditCard)
    ensures multiset(CardsOf(cards, issuer))[c] == if c.issuer == issuer then multiset(cards)[c] else 0
  {
    if cards != [] {
      var prefix := cards[..|cards| - 1];
      SplitLast(cards);
      CardsOfMultiplicity(prefix, issuer, c);
    }
  }

  /** The groups of `keys`, concatenated in key order. */
  function Flatten(groups: map<string, seq<CreditCard>>, keys: seq<string>): seq<CreditCard>
    requires forall k :: k in keys ==> k in groups
  {
    if keys == [] then []
    else Flatten(groups, keys[..|keys| - 1]) + groups[keys[|keys| - 1]]
  }

  /** Appending a card to one group adds exactly that card to the concatenation, if the group is listed once. */
  lemma {:induction false} FlattenAppendToGroup(groups: map<string, seq<CreditCard>>, keys: seq<string>, k: string, c: CreditCard)
    requires forall key :: key in keys ==> key in groups
    requires k in groups
    requires Distinct(keys)
    ensures multiset(Flatten(groups[k := groups[k] + [c]], keys)) ==
      multiset(Flatten(groups, keys)) + (if k in keys then multiset{c} else multiset{})
  {
    if keys != [] {
      var init := keys[..|keys| - 1];
      var last := keys[|keys| - 1];
      var updated := groups[k := groups[k] + [c]];
      SplitLast(keys);
      assert Distinct(init);
      FlattenAppendToGroup(groups, init, k, c);
      assert Flatten(updated, keys) == Flatten(updated, init) + updated[last];
      assert Flatten(groups, keys) == Flatten(groups, init) + groups[last];
      if k == last {
        assert k !in init;
        assert updated[last] == groups[last] + [c];
      } else {
        assert k in keys <==> k in init;
        assert updated[last] == groups[last];
      }
    }
  }

  /** Listing a group that was not listed before appends its cards to the concatenation. */
  lemma {:induction false} FlattenIgnoresUnlistedKey(groups: map<string, seq<CreditCard>>, keys: seq<string>, k: string, v: seq<CreditCard>)
    requires forall key :: key in keys ==> key in groups
    requires k !in keys
    ensures Flatten(groups[k := v], keys) == Flatten(groups, keys)
    ensures Flatten(groups[k := v], keys + [k]) == Flatten(groups, keys) + v
  {
    if keys != [] {
      var init := keys[..|keys| - 1];
      SplitLast(keys);
      FlattenIgnoresUnlistedKey(groups, init, k, v);
    }
    var keys' := keys + [k];
    assert keys'[..|keys'| - 1] == keys;
  }

  /**
   * No card is dropped or duplicated: the groups, taken in key order, hold
   * the catalogue's cards with their multiplicities, so the group sizes sum
   * to the number of cards.
   */
  lemma {:induction false} GroupsCoverCatalogue(cards: seq<CreditCard>)
    ensures multiset(Flatten(Grouping(cards), IssuersOf(cards))) == multiset(cards)
    ensures |Flatten(Grouping(cards), IssuersOf(cards))| == |cards|
  {
    if cards != [] {
      var prefix := cards[..|cards| - 1];
      var card := cards[|cards| - 1];
      SplitLast(cards);
      GroupsCoverCatalogue(prefix);
      GroupingSnoc(prefix, card);
      var keys, groups, k := IssuersOf(prefix), Grouping(prefix), card.issuer;
      var keys', groups' := IssuersOf(cards), Grouping(cards);
      assert groups' == groups[k := CardsOf(prefix, k) + [card]];
      if k in keys {
        assert keys' == keys;
        assert groups' == groups[k := groups[k] + [card]];
        FlattenAppendToGroup(groups, keys, k, card);
        assert multiset(Flatten(groups', keys')) == multiset(Flatten(groups, keys)) + multiset{card};
      } else {
        assert keys' == keys + [k];
        NoCardsOfAbsentIssuer(prefix, k);
        assert CardsOf(prefix, k) + [card] == [card];
        assert groups' == groups[k := [card]];
        FlattenIgnoresUnlistedKey(groups, keys, k, [card]);
        assert Flatten(groups', keys') == Flatten(groups, keys) + [card];
      }
      assert multiset(cards) == multiset(prefix) + multiset{card};
    }
    var all := Flatten(Grouping(cards), IssuersOf(cards));
    assert |multiset(all)| == |all|;
  }

  /** The positions of the cards of `issuer`, in increasing order. */
  function IssuerPositions(cards: seq<CreditCard>, issuer: string): (r: seq<nat>)
    ensures forall i :: 0 <= i < |r| ==> r[i] < |cards|
  {
    if cards == [] then []
    else
      IssuerPositions(cards[..|cards| - 1], issuer)
        + (if cards[|cards| - 1].issuer == issuer then [|cards| - 1] else [])
  }

  /**
   * Each group keeps catalogue order: it is the catalogue read at the
   * increasing positions of exactly the cards of that issuer.
   */
  lemma {:induction false} GroupKeepsCatalogueOrder(cards: seq<CreditCard>, issuer: string)
    ensures var pos := IssuerPositions(cards, issuer);
            && |pos| == |CardsOf(cards, issuer)|
            && (forall i, j :: 0 <= i < j < |pos| ==> pos[i] < pos[j])
            && (forall i :: 0 <= i < |pos| ==> pos[i] < |cards| && cards[pos[i]] == CardsOf(cards, issuer)[i])
            && (forall j :: 0 <= j < |cards| ==> (cards[j].issuer == issuer <==> j in pos))
  {
    IssuerPositionsReadGroup(cards, issuer);
    IssuerPositionsExact(cards, issuer);
  }

  /** Reading the catalogue at the positions of an issuer's cards, in increasing order, gives its group. */
  lemma {:induction false} IssuerPositionsReadGroup(cards: seq<CreditCard>, issuer: string)
    ensures var pos := IssuerPositions(cards, issuer);
            && |pos| == |CardsOf(cards, issuer)|
            && (forall i, j :: 0 <= i < j < |pos| ==> pos[i] < pos[j])
            && (forall i :: 0 <= i < |pos| ==> pos[i] < |cards| && cards[pos[i]] == CardsOf(cards, issuer)[i])
  {
    if cards != [] {
      SplitLast(cards);
      IssuerPositionsReadGroup(cards[..|cards| - 1], issuer);
    }
  }

  /** The positions of an issuer's cards are exactly the positions holding a card of that issuer. */
  lemma {:induction false} IssuerPositionsExact(cards: seq<CreditCard>, issuer: string)
    ensures forall j :: 0 <= j < |cards| ==> (cards[j].issuer == issuer <==> j in IssuerPositions(cards, issuer))
  {
    if cards != [] {
      SplitLast(cards);
      IssuerPositionsExact(cards[..|cards| - 1], issuer);
    }
  }

  /** The position of the first card of `issuer`. */
  function FirstIndex(cards: seq<CreditCard>, issuer: string): (i: nat)
    requires HasIssuer(cards, issuer)
    ensures i < |cards| && cards[i].issuer == issuer
    ensures forall j :: 0 <= j < i ==> cards[j].issuer != issuer
  {
    if cards[0].issuer == issuer then 0
    else
      assert HasIssuer(cards[1..], issuer) by {
        var c :| c in cards && c.issuer == issuer;
        assert c in cards[1..];
      }
      1 + FirstIndex(cards[1..], issuer)
  }

  /** Extending the catalogue does not move an issuer's first card. */
  lemma FirstIndexOfPrefix(prefix: seq<CreditCard>, card: CreditCard, issuer: string)
    requires HasIssuer(prefix, issuer)
    ensures HasIssuer(prefix + [card], issuer)
    ensures FirstIndex(prefix + [card], issuer) == FirstIndex(prefix, issuer)
  {
    var cards := prefix + [card];
    var c :| c in prefix && c.issuer == issuer;
    assert c in cards;
    var i := FirstIndex(prefix, issuer);
    assert cards[i] == prefix[i];
  }

  /** `cardIssuers` lists the issuers in the order of their first card. */
  lemma {:induction false} IssuersInFirstAppearanceOrder(cards: seq<CreditCard>)
    ensures forall k :: k in IssuersOf(cards) ==> HasIssuer(cards, k)
    ensures forall p, q :: 0 <= p < q < |IssuersOf(cards)| ==>
      FirstIndex(cards, IssuersOf(cards)[p]) < FirstIndex(cards, IssuersOf(cards)[q])
  {
    if cards != [] {
      var prefix := cards[..|cards| - 1];
      var card := cards[|cards| - 1];
      SplitLast(cards);
      IssuersInFirstAppearanceOrder(prefix);
      var keys := IssuersOf(prefix);
      forall k | k in keys ensures FirstIndex(cards, k) == FirstIndex(prefix, k) && FirstIndex(prefix, k) < |prefix| {
        FirstIndexOfPrefix(prefix, card, k);
      }
      if card.issuer !in keys {
        assert forall j :: 0 <= j < |prefix| ==> prefix[j] in prefix;
      }
    }
  }

  // ---------------------------------------------------------------------------
  // The catalogue data
  // ---------------------------------------------------------------------------

  /** Consecutive records of one issuer, each given by its name and id. */
  function Run(issuer: string, listings: seq<(string, string)>): (r: seq<CreditCard>)
    ensures AllOfIssuer(r, issuer)
  {
    seq(|listings|, i requires 0 <= i < |listings| => CreditCard(issuer, listings[i].0, listings[i].1))
  }

  /** Runs of one issuer's records, concatenated in order. */
  function Listed(runs: seq<(string, seq<(string, string)>)>): seq<CreditCard> {
    if runs == [] then []
    else
      var last := runs[|runs| - 1];
      Listed(runs[..|runs| - 1]) + Run(last.0, last.1)
  }

  /**
   * `creditCards` (lines 7-122), written as the runs of consecutive records
   * that share an issuer: the issuer, then the name and id of each record.
   */
  function CatalogueRuns(): seq<(string, seq<(string, string)>)> {
    [
      // Capital One Cards
      ("Cap one", CapitalOneListings()),
      // Chase Cards
      ("Chase", ChaseListings()),
      // Bank of America Cards
      ("Bank of America®", BankOfAmericaListings()),
      // American Express Cards
      ("Amex", AmexListings()),
      // Citi Cards
      ("Citi", CitiListings()),
      // Wells Fargo Cards
      ("WFC", WellsFargoListings()),
      // US Bank Cards
      ("US Bank", USBankListings()),
      // Other Cards
      ("Affinity FCU", [("Cash Rewards", "affinity-cash-rewards")]),
      ("Discover", [("Discover It", "discover-it")]),
      ("Elan Financial via Harborstone", [("MCP", "elan-harborstone-mcp")]),
      ("Elan Financial via SouthState", [("MCP", "elan-southstate-mcp")]),
      ("FNBO", [("Amtrack Guest Rewards Preferred", "fnbo-amtrack")]),
      ("Navy Federal", [("Platinum", "navy-federal-platinum")]),
      ("PenFed", [("Pathfinder", "penfed-pathfinder")]),
      ("Synchrony", [("Amazon Store Card", "synchrony-amazon")]),
      ("Target/TD Bank", [("Target Circle Card", "target-circle")]),
      ("USAA", [("Cashback Rewards Plus", "usaa-cashback-rewards-plus"), ("Preferred Cash Rewards", "usaa-preferred-cash")])
    ]
  }

  /** Names and ids of the "Cap one" records, lines 9-25. */
  function CapitalOneListings(): (r: seq<(string, string)>)
    ensures |r| == 17
  {
    [
      ("Platinum Mastercard®", "cap-one-platinum"),
      ("VentureOne Rewards", "cap-one-ventureone"),
      ("Capital One Savor", "cap-one-savor"),
      ("Capital One Quicksilver", "cap-one-quicksilver"),
      ("Capital One QuicksilverOne", "cap-one-quicksilverone"),
      ("Kohl's Rewards® Visa", "cap-one-kohls"),
      ("REI Co-op® Mastercard®", "cap-one-rei"),
      ("Pottery Barn Key Rewards Visa", "cap-one-pottery-barn"),
      ("Williams Sonoma Key Rewards Visa", "cap-one-williams-sonoma"),
      ("West Elm Key Rewards Visa", "cap-one-west-elm"),
      ("The Key Rewards Visa", "cap-one-key-rewards"),
      ("Cabela's CLUB Card", "cap-one-cabelas"),
      ("Bass Pro Shops CLUB Card", "cap-one-bass-pro"),
      ("BJ's One™ Mastercard®", "cap-one-bjs-one"),
      ("BJ's One+™ Mastercard®", "cap-one-bjs-one-plus"),
      ("Capital One Venture Rewards", "cap-one-venture"),
      ("Capital One Venture X", "cap-one-venture-x")
    ]
  }

  /** Names and ids of the "Chase" records, lines 28-56. */
  function ChaseListings(): (r: seq<(string, string)>)
    ensures |r| == 29
  {
    [
      ("Prime Visa", "chase-prime"),
      ("Amazon Visa", "chase-amazon"),
      ("Freedom Unlimited®", "chase-freedom-unlimited"),
      ("Freedom Flex®", "chase-freedom-flex"),
      ("Freedom Rise®", "chase-freedom-rise"),
      ("Sapphire Preferred®", "chase-sapphire-preferred"),
      ("Sapphire Reserve®", "chase-sapphire-reserve"),
      ("Slate Edge®", "chase-slate-edge"),
      ("Southwest Rapid Rewards® Plus", "chase-southwest-plus"),
      ("Southwest Rapid Rewards® Premier", "chase-southwest-premier"),
      ("Southwest Rapid Rewards® Priority", "chase-southwest-priority"),
      ("United Gateway", "chase-united-gateway"),
      ("United Explorer Card", "chase-united-explorer"),
      ("United Quest Card", "chase-united-quest"),
      ("United Club Infinite Card", "chase-united-club-infinite"),
      ("Marriott Bonvoy Boundless®", "chase-marriott-boundless"),
      ("Marriott Bonvoy Bountiful®", "chase-marriott-bountiful"),
      ("Marriott Bonvoy Bold®", "chase-marriott-bold"),
      ("IHG One Rewards Traveler", "chase-ihg-traveler"),
      ("IHG Premier", "chase-ihg-premier"),
      ("Disney® Premier Visa® Card", "chase-disney-premier"),
      ("Disney® Visa® Card", "chase-disney-visa"),
      ("World of Hyatt", "chase-hyatt"),
      ("Aeroplan® Card", "chase-aeroplan"),
      ("British Airways Visa Signature®", "chase-british-airways"),
      ("Aer Lingus Visa Signature®", "chase-aer-lingus"),
      ("Iberia Visa Signature®", "chase-iberia"),
      ("DoorDash Rewards Mastercard®", "chase-doordash"),
      ("Instacart Mastercard®", "chase-instacart")
    ]
  }

  /** Names and ids of the "Bank of America®" records, lines 59-64. */
  function BankOfAmericaListings(): (r: seq<(string, string)>)
    ensures |r| == 6
  {
    [
      ("Customized Cash Rewards", "boa-cash-rewards"),
      ("Unlimited Cash Rewards", "boa-unlimited-cash"),
      ("Premium Rewards®", "boa-premium"),
      ("Premium Rewards® Elite", "boa-premium-elite"),
      ("Travel Rewards", "boa-travel"),
      ("Alaska Mileage Plan", "boa-alaska")
    ]
  }

  /** Names and ids of the "Amex" records, lines 67-81. */
  function AmexListings(): (r: seq<(string, string)>)
    ensures |r| == 15
  {
    [
      ("American Express Green Card", "amex-green"),
      ("Blue Cash Preferred®", "amex-blue-cash-preferred"),
      ("Blue Cash Everyday®", "amex-blue-cash-everyday"),
      ("Gold Card", "amex-gold"),
      ("The Platinum Card®", "amex-platinum"),
      ("Charles Schwab Platinum", "amex-schwab-platinum"),
      ("Hilton Honors", "amex-hilton"),
      ("Hilton Surpass", "amex-hilton-surpass"),
      ("Hilton Aspire", "amex-hilton-aspire"),
      ("Delta SkyMiles® Blue", "amex-delta-blue"),
      ("Delta SkyMiles® Gold", "amex-delta-gold"),
      ("Delta SkyMiles® Platinum", "amex-delta-platinum"),
      ("Delta SkyMiles® Reserve", "amex-delta-reserve"),
      ("Marriott Bonvoy Brilliant®", "amex-marriott-brilliant"),
      ("Marriott Bonvoy Bevy®", "amex-marriott-bevy")
    ]
  }

  /** Names and ids of the "Citi" records, lines 84-92. */
  function CitiListings(): (r: seq<(string, string)>)
    ensures |r| == 9
  {
    [
      ("Citi Double Cash®", "citi-double-cash"),
      ("Citi Custom Cash®", "citi-custom-cash"),
      ("Citi Rewards+® Student", "citi-rewards-student"),
      ("Citi Premier® Card", "citi-premier"),
      ("Costco Anywhere Visa® Card by Citi", "citi-costco"),
      ("Shop Your Way", "citi-shop-your-way"),
      ("Strata Premier", "citi-strata-premier"),
      ("AAdvantage Platinum Select", "citi-aadvantage-platinum"),
      ("Citi Rewards+ Card", "citi-rewards-plus")
    ]
  }

  /** Names and ids of the "WFC" records, lines 95-102. */
  function WellsFargoListings(): (r: seq<(string, string)>)
    ensures |r| == 8
  {
    [
      ("Wells Fargo Active Cash®", "wfc-active-cash"),
      ("Wells Fargo Attune®", "wfc-attune"),
      ("Wells Fargo Autograph℠ Card", "wfc-autograph"),
      ("Wells Fargo Reflect® Card", "wfc-reflect"),
      ("Wells Fargo Autograph Journey℠ Card", "wfc-autograph-journey"),
      ("Wells Fargo Bilt Rewards", "wfc-bilt"),
      ("Wells Fargo Choice Privileges Select", "wfc-choice-privileges"),
      ("Wells Fargo OneKey+", "wfc-onekey-plus")
    ]
  }

  /** Names and ids of the "US Bank" records, lines 105-108. */
  function USBankListings(): (r: seq<(string, string)>)
    ensures |r| == 4
  {
    [
      ("US Bank Cash+®", "usbank-cash-plus"),
      ("US Bank Shopper Cash Rewards", "usbank-shopper-cash"),
      ("US Bank Altitude Go", "usbank-altitude-go"),
      ("US Bank Altitude Reserve", "usbank-altitude-reserve")
    ]
  }

  /** The 99 records of `creditCards`, in source order. */
  function CreditCards(): seq<CreditCard> {
    Listed(CatalogueRuns())
  }

  /** The issuers of the catalogue, in order of first appearance. */
  const CatalogueIssuers: seq<string> := [
    "Cap one", "Chase", "Bank of America®", "Amex", "Citi", "WFC", "US Bank",
    "Affinity FCU", "Discover", "Elan Financial via Harborstone", "Elan Financial via SouthState",
    "FNBO", "Navy Federal", "PenFed", "Synchrony", "Target/TD Bank", "USAA"
  ]

  /** Every card of `cards` has issuer `issuer`. */
  ghost predicate AllOfIssuer(cards: seq<CreditCard>, issuer: string) {
    forall c :: c in cards ==> c.issuer == issuer
  }

  /** Appending a non-empty run of one issuer's cards adds that issuer once, at the end, if it is new. */
  lemma {:induction false} IssuersOfRun(cards: seq<CreditCard>, run: seq<CreditCard>, issuer: string)
    requires run != [] && AllOfIssuer(run, issuer)
    ensures IssuersOf(cards + run) ==
      if issuer in IssuersOf(cards) then IssuersOf(cards) else IssuersOf(cards) + [issuer]
  {
    var init := run[..|run| - 1];
    var last := run[|run| - 1];
    AppendSplitLast(cards, run);
    GroupingSnoc(cards + init, last);
    if init != [] {
      IssuersOfRun(cards, init, issuer);
    } else {
      assert cards + init == cards;
    }
  }

  /** Filtering distributes over concatenation. */
  lemma {:induction false} CardsOfAppend(a: seq<CreditCard>, b: seq<CreditCard>, issuer: string)
    ensures CardsOf(a + b, issuer) == CardsOf(a, issuer) + CardsOf(b, issuer)
  {
    if b == [] {
      assert a + b == a;
    } else {
      var init := b[..|b| - 1];
      AppendSplitLast(a, b);
      CardsOfAppend(a, init, issuer);
    }
  }

  /** A run of one issuer's cards contributes nothing to another issuer's group. */
  lemma CardsOfOtherRun(run: seq<CreditCard>, runIssuer: string, issuer: string)
    requires AllOfIssuer(run, runIssuer) && issuer != runIssuer
    ensures CardsOf(run, issuer) == []
  {
  }

  /** A run of one issuer's cards is its own group. */
  lemma {:induction false} CardsOfRun(run: seq<CreditCard>, issuer: string)
    requires AllOfIssuer(run, issuer)
    ensures CardsOf(run, issuer) == run
  {
    if run != [] {
      var init := run[..|run| - 1];
      SplitLast(run);
      CardsOfRun(init, issuer);
    }
  }


  /** Runs carrying the issuers `issuers`, in order, each with at least one record. */
  ghost predicate RunsOf(runs: seq<(string, seq<(string, string)>)>, issuers: seq<string>) {
    && |runs| == |issuers|
    && (forall i :: 0 <= i < |runs| ==> runs[i].0 == issuers[i] && runs[i].1 != [])
  }

  /** Runs with distinct issuers list those issuers, in run order. */
  lemma {:induction false} ListedIssuers(runs: seq<(string, seq<(string, string)>)>, issuers: seq<string>)
    requires RunsOf(runs, issuers) && Distinct(issuers)
    ensures IssuersOf(Listed(runs)) == issuers
  {
    if runs != [] {
      var init := runs[..|runs| - 1];
      var last := runs[|runs| - 1];
      var initIssuers := issuers[..|issuers| - 1];
      PrefixSnoc(issuers, |issuers| - 1);
      assert issuers[..|issuers|] == issuers;
      assert RunsOf(init, initIssuers);
      ListedIssuers(init, initIssuers);
      IssuersOfRun(Listed(init), Run(last.0, last.1), last.0);
    }
  }

  /** Runs with distinct issuers: the group of a run's issuer is exactly that run. */
  lemma {:induction false} ListedGroup(runs: seq<(string, seq<(string, string)>)>, issuers: seq<string>, i: nat)
    requires RunsOf(runs, issuers) && Distinct(issuers)
    requires i < |runs|
    ensures CardsOf(Listed(runs), issuers[i]) == Run(issuers[i], runs[i].1)
  {
    var init := runs[..|runs| - 1];
    var last := runs[|runs| - 1];
    var initIssuers := issuers[..|issuers| - 1];
    var issuer := issuers[i];
    assert RunsOf(init, initIssuers);
    CardsOfAppend(Listed(init), Run(last.0, last.1), issuer);
    if i == |runs| - 1 {
      ListedIssuers(init, initIssuers);
      assert issuer !in initIssuers;
      NoCardsOfAbsentIssuer(Listed(init), issuer);
      CardsOfRun(Run(last.0, last.1), issuer);
    } else {
      ListedGroup(init, initIssuers, i);
      CardsOfOtherRun(Run(last.0, last.1), last.0, issuer);
    }
  }

  /** Runs whose record counts are the differences of `ends` hold `ends`' last value in records. */
  lemma {:induction false} ListedLength(runs: seq<(string, seq<(string, string)>)>, ends: seq<nat>)
    requires |runs| == |ends|
    requires forall i {:trigger ends[i]} :: 0 <= i < |runs| ==> ends[i] == (if i == 0 then 0 else ends[i - 1]) + |runs[i].1|
    ensures |Listed(runs)| == if runs == [] then 0 else ends[|ends| - 1]
  {
    if runs != [] {
      var init := runs[..|runs| - 1];
      var initEnds := ends[..|ends| - 1];
      forall i | 0 <= i < |init|
        ensures initEnds[i] == (if i == 0 then 0 else initEnds[i - 1]) + |init[i].1|
      {
        assert init[i] == runs[i] && initEnds[i] == ends[i];
        assert ends[i] == (if i == 0 then 0 else ends[i - 1]) + |runs[i].1|;
        if i > 0 {
          assert initEnds[i - 1] == ends[i - 1];
        }
      }
      ListedLength(init, initEnds);
      var n := |runs|;
      assert |Listed(runs)| == |Listed(init)| + |runs[n - 1].1|;
      assert ends[n - 1] == (if n - 1 == 0 then 0 else ends[n - 2]) + |runs[n - 1].1|;
      if n > 1 {
        assert initEnds[n - 2] == ends[n - 2];
      }
    }
  }

  /** The position just past each run of the catalogue: its runs hold 17, 29, 6, 15, 9, 8, 4, 1, ..., 1 and 2 records. */
  const RunEnds: seq<nat> := [17, 46, 52, 67, 76, 84, 88, 89, 90, 91, 92, 93, 94, 95, 96, 97, 99]

  /** The catalogue's runs carry, in order, the issuers of `CatalogueIssuers`. */
  lemma CatalogueRunIssuers()
    ensures RunsOf(CatalogueRuns(), CatalogueIssuers)
  {
  }

  /** The catalogue's runs end at the positions `RunEnds`. */
  lemma CatalogueRunLengths()
    ensures |CatalogueRuns()| == |RunEnds|
    ensures forall i :: 0 <= i < |CatalogueRuns()| ==>
      RunEnds[i] == (if i == 0 then 0 else RunEnds[i - 1]) + |CatalogueRuns()[i].1|
  {
  }

  /** No issuer is listed twice in `CatalogueIssuers`. */
  lemma CatalogueIssuersDistinct()
    ensures Distinct(CatalogueIssuers)
  {
  }

  /** The catalogue holds 99 records. */
  lemma CatalogueSize()
    ensures |CreditCards()| == 99
  {
    CatalogueRunLengths();
    ListedLength(CatalogueRuns(), RunEnds);
  }

  /**
   * `cardIssuers` for the shown data: 17 issuers, in the order "Cap one",
   * "Chase", "Bank of America®", "Amex", ..., "USAA".
   */
  lemma CatalogueIssuerOrder()
    ensures IssuersOf(CreditCards()) == CatalogueIssuers
    ensures |IssuersOf(CreditCards())| == 17
  {
    CatalogueRunIssuers();
    CatalogueIssuersDistinct();
    ListedIssuers(CatalogueRuns(), CatalogueIssuers);
  }

  /** The group sizes of the shown data sum to 99. */
  lemma CatalogueGroupSizes()
    ensures |Flatten(Grouping(CreditCards()), IssuersOf(CreditCards()))| == 99
  {
    CatalogueSize();
    GroupsCoverCatalogue(CreditCards());
  }

  /** Each group of the shown data is the run of its issuer's records. */
  lemma CatalogueGroups(i: nat)
    requires i < 17
    ensures CatalogueIssuers[i] in Grouping(CreditCards())
    ensures Grouping(CreditCards())[CatalogueIssuers[i]] == Run(CatalogueIssuers[i], CatalogueRuns()[i].1)
  {
    CatalogueIssuerOrder();
    CatalogueRunIssuers();
    CatalogueIssuersDistinct();
    ListedGroup(CatalogueRuns(), CatalogueIssuers, i);
  }

  /**
   * Records of different issuers stay apart even when they share a name: the
   * two Elan "MCP" cards (lines 113-114) each form a group of their own.
   */
  lemma CatalogueElanHarborstoneGroup()
    ensures "Elan Financial via Harborstone" in Grouping(CreditCards())
    ensures Grouping(CreditCards())["Elan Financial via Harborstone"] ==
      [CreditCard("Elan Financial via Harborstone", "MCP", "elan-harborstone-mcp")]
  {
    assert CatalogueRuns()[9].1 == [("MCP", "elan-harborstone-mcp")];
    assert CatalogueIssuers[9] == "Elan Financial via Harborstone";
    CatalogueGroups(9);
  }

  /** The other Elan "MCP" card (line 114) is alone in its group too. */
  lemma CatalogueElanSouthStateGroup()
    ensures "Elan Financial via SouthState" in Grouping(CreditCards())
    ensures Grouping(CreditCards())["Elan Financial via SouthState"] ==
      [CreditCard("Elan Financial via SouthState", "MCP", "elan-southstate-mcp")]
  {
    assert CatalogueRuns()[10].1 == [("MCP", "elan-southstate-mcp")];
    assert CatalogueIssuers[10] == "Elan Financial via SouthState";
    CatalogueGroups(10);
  }

  /** Consecutive records of one issuer share a group: the two USAA cards (lines 120-121). */
  lemma CatalogueUsaaGroup()
    ensures "USAA" in Grouping(CreditCards())
    ensures Grouping(CreditCards())["USAA"] == [
      CreditCard("USAA", "Cashback Rewards Plus", "usaa-cashback-rewards-plus"),
      CreditCard("USAA", "Preferred Cash Rewards", "usaa-preferred-cash")
    ]
  {
    assert CatalogueRuns()[16].1 == [("Cashback Rewards Plus", "usaa-cashback-rewards-plus"), ("Preferred Cash Rewards", "usaa-preferred-cash")];
    CatalogueGroups(16);
  }

  /**
   * `cardsByIssuer` and `cardIssuers = Object.keys(cardsByIssuer)` for the
   * catalogue (lines 125-135): the issuers come out as `CatalogueIssuers`.
   */
  method CatalogueIndex() returns (cardsByIssuer: IssuerGroups, cardIssuers: seq<string>)
    ensures WellFormed(cardsByIssuer)
    ensures cardsByIssuer.groups == Grouping(CreditCards())
    ensures cardIssuers == cardsByIssuer.keys
    ensures cardIssuers == CatalogueIssuers
  {
    cardsByIssuer := GroupByIssuer(CreditCards());
    cardIssuers := cardsByIssuer.keys;
    CatalogueIssuerOrder();
  }
}
