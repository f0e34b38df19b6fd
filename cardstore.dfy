/** The card catalog, the owned collection and the rarity roll (src/stores/cardStore.ts). */
module CardStore {
  import opened Basics
  import opened Seqs
  import Text

  datatype Rarity = Common | Rare | Epic | Legendary

  datatype Theme = Academic | Action | SliceOfLife | Fantasy

  datatype Subject = Math | English | Science | History | Art | Music

  /** A catalog entry: `Omit<Card, 'id' | 'obtainedAt' | 'isDuplicated'>`. */
  datatype CardInfo = CardInfo(
    name: string,
    description: string,
    rarity: Rarity,
    theme: Theme,
    subject: Subject,
    imageUrl: string)

  /** An owned card: a catalog entry with an id, an acquisition time and the duplicate flag. */
  datatype Card = Card(id: string, info: CardInfo, obtainedAt: int, isDuplicated: bool)

  /** The fixed catalog: three common, two rare, two epic and one legendary card. */
  const PredefinedCards: seq<CardInfo> := [
    CardInfo("数学小天才", "掌握基础数学知识的小天才", Common, Academic, Math, "/cards/math-genius.png"),
    CardInfo("英语单词王", "词汇量丰富的英语达人", Common, Academic, English, "/cards/english-master.png"),
    CardInfo("科学探索者", "热爱科学实验的小科学家", Common, Academic, Science, "/cards/science-explorer.png"),
    CardInfo("历史时光旅行者", "穿越历史长河的博学者", Rare, Fantasy, History, "/cards/history-traveler.png"),
    CardInfo("艺术创意家", "充满创意的艺术天才", Rare, SliceOfLife, Art, "/cards/art-creator.png"),
    CardInfo("全能学霸", "各科成绩优异的全能学生", Epic, Academic, Math, "/cards/all-rounder.png"),
    CardInfo("音乐大师", "精通多种乐器的音乐天才", Epic, SliceOfLife, Music, "/cards/music-master.png"),
    CardInfo("智慧之神", "掌握所有知识的智慧化身", Legendary, Fantasy, Math, "/cards/wisdom-god.png")
  ]

  /** The catalog entries of one rarity, in catalog order. */
  function OfRarity(catalog: seq<CardInfo>, r: Rarity): seq<CardInfo> {
    Filter(catalog, (c: CardInfo) => c.rarity == r)
  }

  /** The rarities of a catalog, entry by entry. */
  function Rarities(catalog: seq<CardInfo>): (rs: seq<Rarity>)
    ensures |rs| == |catalog| && forall i :: 0 <= i < |catalog| ==> rs[i] == catalog[i].rarity
  {
    seq(|catalog|, i requires 0 <= i < |catalog| => catalog[i].rarity)
  }

  /** How often `r` occurs in `rs`. */
  function Occurrences(rs: seq<Rarity>, r: Rarity): nat {
    if rs == [] then 0 else (if rs[0] == r then 1 else 0) + Occurrences(rs[1..], r)
  }

  /** The entries of one rarity are as many as the occurrences of that rarity. */
  lemma {:induction false} OfRarityCount(catalog: seq<CardInfo>, r: Rarity)
    ensures |OfRarity(catalog, r)| == Occurrences(Rarities(catalog), r)
  {
    if catalog != [] {
      OfRarityCount(catalog[1..], r);
      assert Rarities(catalog)[1..] == Rarities(catalog[1..]);
    }
  }

  /** The catalog's rarities, counted. */
  lemma PredefinedOccurrences()
    ensures Occurrences(Rarities(PredefinedCards), Common) == 3
    ensures Occurrences(Rarities(PredefinedCards), Rare) == 2
    ensures Occurrences(Rarities(PredefinedCards), Epic) == 2
    ensures Occurrences(Rarities(PredefinedCards), Legendary) == 1
  {
    var rs := [Common, Common, Common, Rare, Rare, Epic, Epic, Legendary];
    var ps := Rarities(PredefinedCards);
    assert ps[0] == Common && ps[1] == Common && ps[2] == Common && ps[3] == Rare;
    assert ps[4] == Rare && ps[5] == Epic && ps[6] == Epic && ps[7] == Legendary;
    assert ps == rs;
    assert Occurrences(rs, Common) == 3 && Occurrences(rs, Rare) == 2;
    assert Occurrences(rs, Epic) == 2 && Occurrences(rs, Legendary) == 1;
  }

  /** The catalog holds eight entries: three common, two rare, two epic, one legendary. */
  lemma PredefinedCatalogShape()
    ensures |PredefinedCards| == 8
    ensures |OfRarity(PredefinedCards, Common)| == 3
    ensures |OfRarity(PredefinedCards, Rare)| == 2
    ensures |OfRarity(PredefinedCards, Epic)| == 2
    ensures |OfRarity(PredefinedCards, Legendary)| == 1
  {
    PredefinedOccurrences();
    OfRarityCount(PredefinedCards, Common);
    OfRarityCount(PredefinedCards, Rare);
    OfRarityCount(PredefinedCards, Epic);
    OfRarityCount(PredefinedCards, Legendary);
  }

  /** `cardLibrary`: the catalog stamped with ids `card-0` … `card-7`. */
  function Library(now: int): (lib: seq<Card>)
    ensures |lib| == |PredefinedCards|
    ensures forall i :: 0 <= i < |lib| ==>
      lib[i].info == PredefinedCards[i] && lib[i].id == "card-" + Text.NatToString(i) && !lib[i].isDuplicated
  {
    seq(|PredefinedCards|, i requires 0 <= i < |PredefinedCards| =>
      Card("card-" + Text.NatToString(i), PredefinedCards[i], now, false))
  }

  /** Two cards with the same name and rarity count as the same card. */
  predicate SamePair(c: Card, info: CardInfo) {
    c.info.name == info.name && c.info.rarity == info.rarity
  }

  /** The collection holds at most one card per (name, rarity). */
  ghost predicate UniquePairs(cards: seq<Card>) {
    forall i, j :: 0 <= i < j < |cards| ==> !SamePair(cards[j], cards[i].info)
  }

  /** `cards.find(...)`: the index of the first owned card with this (name, rarity). */
  function FirstOwned(cards: seq<Card>, info: CardInfo): (r: Option<nat>)
    ensures r.Some? ==> r.value < |cards| && SamePair(cards[r.value], info)
                        && forall j :: 0 <= j < r.value ==> !SamePair(cards[j], info)
    ensures r.None? ==> forall j :: 0 <= j < |cards| ==> !SamePair(cards[j], info)
  {
    if cards == [] then None
    else if SamePair(cards[0], info) then Some(0)
    else match FirstOwned(cards[1..], info)
      case None => None
      case Some(k) => Some(k + 1)
  }

  /** `cards.map(c => c.id === id ? { ...c, isDuplicated: true } : c)`. */
  function MarkedById(cards: seq<Card>, id: string): (r: seq<Card>)
    ensures |r| == |cards|
    ensures forall i :: 0 <= i < |cards| ==>
      r[i] == if cards[i].id == id then cards[i].(isDuplicated := true) else cards[i]
  {
    if cards == [] then []
    else [if cards[0].id == id then cards[0].(isDuplicated := true) else cards[0]]
         + MarkedById(cards[1..], id)
  }

  /** `addCard(info)`: an already owned (name, rarity) is flagged on the owned
      card (every card sharing its id) and nothing is appended; otherwise a new
      unflagged card is appended. */
  function AfterAdd(cards: seq<Card>, info: CardInfo, freshId: string, now: int): (r: seq<Card>)
    ensures FirstOwned(cards, info).Some? ==>
      var k := FirstOwned(cards, info).value;
      |r| == |cards| && r[k].isDuplicated && SamePair(r[k], info)
      && forall j :: 0 <= j < |cards| ==>
           r[j].info == cards[j].info && r[j].id == cards[j].id && r[j].obtainedAt == cards[j].obtainedAt
           && (cards[j].id != cards[k].id ==> r[j] == cards[j])
    ensures FirstOwned(cards, info).None? ==>
      |r| == |cards| + 1 && r[..|cards|] == cards
      && r[|cards|].info == info && r[|cards|].id == freshId && r[|cards|].obtainedAt == now
      && !r[|cards|].isDuplicated
  {
    match FirstOwned(cards, info)
    case Some(k) => MarkedById(cards, cards[k].id)
    case None => cards + [Card(freshId, info, now, false)]
  }

  /** `removeCard(id)`: the cards whose id differs, in collection order.
      Membership both ways and the subsequence relation fix the result
      exactly when no card repeats, which `UniquePairs` guarantees for the
      store's collection. */
  function Without(cards: seq<Card>, id: string): (r: seq<Card>)
    ensures forall i :: 0 <= i < |r| ==> r[i].id != id && r[i] in cards
    ensures forall i :: 0 <= i < |cards| && cards[i].id != id ==> cards[i] in r
    ensures IsSubseq(r, cards)
  {
    Filter(cards, (c: Card) => c.id != id)
  }

  /** Adding keeps the collection free of repeated (name, rarity) pairs. */
  lemma AfterAddKeepsUnique(cards: seq<Card>, info: CardInfo, freshId: string, now: int)
    requires UniquePairs(cards)
    ensures UniquePairs(AfterAdd(cards, info, freshId, now))
  {
    var r := AfterAdd(cards, info, freshId, now);
    if FirstOwned(cards, info).None? {
      forall i, j | 0 <= i < j < |r| ensures !SamePair(r[j], r[i].info) {
        if j < |cards| {
          assert r[i] == cards[i] && r[j] == cards[j];
        }
      }
    }
  }

  /** Flagging by id keeps the collection free of repeated pairs, and flagging twice is flagging once. */
  lemma MarkedByIdLaws(cards: seq<Card>, id: string)
    ensures UniquePairs(cards) ==> UniquePairs(MarkedById(cards, id))
    ensures MarkedById(MarkedById(cards, id), id) == MarkedById(cards, id)
  {
    var m := MarkedById(cards, id);
    forall i | 0 <= i < |cards|
      ensures m[i].info == cards[i].info && MarkedById(m, id)[i] == m[i]
    {
    }
    if UniquePairs(cards) {
      forall i, j | 0 <= i < j < |m| ensures !SamePair(m[j], m[i].info) {
        assert !SamePair(cards[j], cards[i].info);
      }
    }
  }

  /** Removing cards keeps the collection free of repeated pairs. */
  lemma {:induction false} WithoutKeepsUnique(cards: seq<Card>, id: string)
    requires UniquePairs(cards)
    ensures UniquePairs(Without(cards, id))
  {
    if cards != [] {
      var tail := cards[1..];
      assert UniquePairs(tail) by {
        forall i, j | 0 <= i < j < |tail| ensures !SamePair(tail[j], tail[i].info) {
          assert tail[i] == cards[i + 1] && tail[j] == cards[j + 1];
        }
      }
      WithoutKeepsUnique(tail, id);
      var rest := Without(tail, id);
      if cards[0].id != id {
        var r := [cards[0]] + rest;
        assert Without(cards, id) == r;
        forall i, j | 0 <= i < j < |r| ensures !SamePair(r[j], r[i].info) {
          if i == 0 {
            assert r[j] in tail;
            var k :| 0 <= k < |tail| && tail[k] == r[j];
            assert cards[k + 1] == r[j];
          } else {
            assert r[i] == rest[i - 1] && r[j] == rest[j - 1];
          }
        }
      } else {
        assert Without(cards, id) == rest;
      }
    }
  }

  /** Owned cards of one rarity, theme or subject (`getCardsByRarity/Theme/Subject`).
      Membership both ways and the subsequence relation fix the result
      exactly when no card repeats, which `UniquePairs` guarantees for the
      store's collection. */
  function ByRarity(cards: seq<Card>, r: Rarity): (res: seq<Card>)
    ensures forall i :: 0 <= i < |res| ==> res[i].info.rarity == r && res[i] in cards
    ensures forall i :: 0 <= i < |cards| && cards[i].info.rarity == r ==> cards[i] in res
    ensures IsSubseq(res, cards)
  {
    Filter(cards, (c: Card) => c.info.rarity == r)
  }

  function ByTheme(cards: seq<Card>, t: Theme): (res: seq<Card>)
    ensures forall i :: 0 <= i < |res| ==> res[i].info.theme == t && res[i] in cards
    ensures forall i :: 0 <= i < |cards| && cards[i].info.theme == t ==> cards[i] in res
    ensures IsSubseq(res, cards)
  {
    Filter(cards, (c: Card) => c.info.theme == t)
  }

  function BySubject(cards: seq<Card>, s: Subject): (res: seq<Card>)
    ensures forall i :: 0 <= i < |res| ==> res[i].info.subject == s && res[i] in cards
    ensures forall i :: 0 <= i < |cards| && cards[i].info.subject == s ==> cards[i] in res
    ensures IsSubseq(res, cards)
  {
    Filter(cards, (c: Card) => c.info.subject == s)
  }

  /** Stamping entries into cards keeps the count of each rarity. */
  lemma {:induction false} ByRarityOfStamped(cards: seq<Card>, infos: seq<CardInfo>, r: Rarity)
    requires |cards| == |infos| && forall i :: 0 <= i < |cards| ==> cards[i].info == infos[i]
    ensures |ByRarity(cards, r)| == |OfRarity(infos, r)|
  {
    if cards != [] {
      ByRarityOfStamped(cards[1..], infos[1..], r);
    }
  }

  /** The stamped library has the catalog's shape: 8 cards, 3 common, 2 rare,
      2 epic and 1 legendary, so these are the totals the collection progress reports. */
  lemma LibraryShape(now: int)
    ensures |Library(now)| == 8
    ensures |ByRarity(Library(now), Common)| == 3 && |ByRarity(Library(now), Rare)| == 2
    ensures |ByRarity(Library(now), Epic)| == 2 && |ByRarity(Library(now), Legendary)| == 1
  {
    PredefinedCatalogShape();
    var lib := Library(now);
    ByRarityOfStamped(lib, PredefinedCards, Common);
    ByRarityOfStamped(lib, PredefinedCards, Rare);
    ByRarityOfStamped(lib, PredefinedCards, Epic);
    ByRarityOfStamped(lib, PredefinedCards, Legendary);
  }

  /** The distinct names in the collection (`new Set(cards.map(c => c.name))`). */
  function OwnedNames(cards: seq<Card>): set<string> {
    set i | 0 <= i < |cards| :: cards[i].info.name
  }

  lemma {:induction false} OwnedNamesBound(cards: seq<Card>)
    ensures |OwnedNames(cards)| <= |cards|
    ensures |OwnedNames(cards)| == 0 <==> cards == []
  {
    if cards != [] {
      var tail := cards[1..];
      OwnedNamesBound(tail);
      assert OwnedNames(cards) == {cards[0].info.name} + OwnedNames(tail) by {
        forall n | n in OwnedNames(cards) ensures n in {cards[0].info.name} + OwnedNames(tail) {
          var i :| 0 <= i < |cards| && cards[i].info.name == n;
          if i > 0 {
            assert tail[i - 1].info.name == n;
          }
        }
        forall n | n in OwnedNames(tail) ensures n in OwnedNames(cards) {
          var i :| 0 <= i < |tail| && tail[i].info.name == n;
          assert cards[i + 1].info.name == n;
        }
      }
      assert cards[0].info.name in OwnedNames(cards);
    }
  }

  /** Collection progress in percent: `total > 0 ? collected / total * 100 : 0`. */
  function ProgressPercent(collected: nat, total: nat): (p: real)
    ensures total == 0 ==> p == 0.0
    ensures collected <= total ==> 0.0 <= p <= 100.0
    ensures total > 0 ==> (p == 100.0 <==> collected == total)
  {
    if total > 0 then collected as real / total as real * 100.0 else 0.0
  }

  /** Three distinct names out of the eight-card catalog is 37.5 percent. */
  lemma ProgressExample()
    ensures ProgressPercent(3, |PredefinedCards|) == 37.5
  {
  }

  /** Some owned card has this rarity. */
  predicate OwnsRarity(cards: seq<Card>, r: Rarity) {
    exists i | 0 <= i < |cards| :: cards[i].info.rarity == r
  }

  lemma OwnsRarityExtend(cards: seq<Card>, i: nat, r: Rarity)
    requires i < |cards|
    ensures OwnsRarity(cards[..i + 1], r) <==> OwnsRarity(cards[..i], r) || cards[i].info.rarity == r
  {
    assert cards[..i + 1] == cards[..i] + [cards[i]];
    if OwnsRarity(cards[..i + 1], r) && cards[i].info.rarity != r {
      var j :| 0 <= j < i + 1 && cards[..i + 1][j].info.rarity == r;
      assert cards[..i][j].info.rarity == r;
    }
    if OwnsRarity(cards[..i], r) {
      var j :| 0 <= j < i && cards[..i][j].info.rarity == r;
      assert cards[..i + 1][j].info.rarity == r;
    }
    if cards[i].info.rarity == r {
      assert cards[..i + 1][i].info.rarity == r;
    }
  }

  datatype RarityStat = RarityStat(total: nat, collected: nat)

  /** `Record<rarity, { total, collected }>`. */
  datatype RarityTable = RarityTable(common: RarityStat, rare: RarityStat, epic: RarityStat, legendary: RarityStat)
  {
    function Get(r: Rarity): RarityStat {
      match r
      case Common => common
      case Rare => rare
      case Epic => epic
      case Legendary => legendary
    }

    function Set(r: Rarity, s: RarityStat): (t: RarityTable)
      ensures t.Get(r) == s && forall q :: q != r ==> t.Get(q) == Get(q)
    {
      match r
      case Common => this.(common := s)
      case Rare => this.(rare := s)
      case Epic => this.(epic := s)
      case Legendary => this.(legendary := s)
    }
  }

  datatype CollectionProgress = CollectionProgress(
    total: nat,
    collected: nat,
    progress: real,
    byRarity: RarityTable)

  /** The rarity chosen for a difficulty from one roll in [0, 1). */
  function RollRarity(d: Difficulty, roll: real): (r: Rarity)
    ensures d == Easy ==> r == Common
    ensures r == Rare <==> (d == Medium && 0.5 <= roll < 0.6) || (d == Hard && 0.4 <= roll < 0.7)
    ensures r == Epic <==> d == Hard && 0.7 <= roll < 0.8
    ensures r == Legendary <==> d == Hard && 0.8 <= roll < 0.9
  {
    match d
    case Easy => Common // the source's only branch (roll < 0.2) also picks common
    case Medium =>
      if roll < 0.5 then Common
      else if roll < 0.6 then Rare
      else Common
    case Hard =>
      if roll < 0.4 then Common
      else if roll < 0.7 then Rare
      else if roll < 0.8 then Epic
      else if roll < 0.9 then Legendary
      else Common
  }

  lemma ScaledIndexInRange(pick: real, n: nat)
    requires 0.0 <= pick < 1.0 && n > 0
    ensures 0 <= (pick * n as real).Floor < n
  {
    assert pick * n as real < n as real;
  }

  /** `generateRandomCard` over a catalog: the rarity from `roll`, then the entry
      at `floor(pick * count)` among that rarity's entries, or `None` when the
      catalog has no entry of that rarity. */
  function GenerateFrom(catalog: seq<CardInfo>, d: Difficulty, roll: real, pick: real,
                        freshId: string, now: int): (r: Option<Card>)
    requires 0.0 <= pick < 1.0
    ensures r.None? <==> forall i :: 0 <= i < |catalog| ==> catalog[i].rarity != RollRarity(d, roll)
    ensures r.Some? ==> r.value.info in catalog && r.value.info.rarity == RollRarity(d, roll)
                        && r.value.id == freshId && r.value.obtainedAt == now && !r.value.isDuplicated
  {
    var available := OfRarity(catalog, RollRarity(d, roll));
    if |available| == 0 then
      FilterNoneEmpty(catalog, RollRarity(d, roll));
      None
    else
      ScaledIndexInRange(pick, |available|);
      Some(Card(freshId, available[(pick * |available| as real).Floor], now, false))
  }

  lemma FilterNoneEmpty(catalog: seq<CardInfo>, r: Rarity)
    requires |OfRarity(catalog, r)| == 0
    ensures forall i :: 0 <= i < |catalog| ==> catalog[i].rarity != r
  {
  }

  /** `generateRandomCard(difficulty)` with the predefined catalog: every rarity
      is present there, so a card always comes out. */
  function GenerateRandomCard(d: Difficulty, roll: real, pick: real, freshId: string, now: int): (r: Option<Card>)
    requires 0.0 <= pick < 1.0
    ensures r.Some? && r.value.info in PredefinedCards && r.value.info.rarity == RollRarity(d, roll)
  {
    var rarity := RollRarity(d, roll);
    assert PredefinedCards[0].rarity == Common && PredefinedCards[3].rarity == Rare;
    assert PredefinedCards[5].rarity == Epic && PredefinedCards[7].rarity == Legendary;
    GenerateFrom(PredefinedCards, d, roll, pick, freshId, now)
  }

  /** The card collection and the stamped catalog. */
  class CardStore {
    var cards: seq<Card>
    var cardLibrary: seq<Card>

    ghost predicate Valid()
      reads this
    {
      UniquePairs(cards)
    }

    constructor (now: int)
      ensures cards == [] && cardLibrary == Library(now) && Valid()
    {
      cards := [];
      cardLibrary := Library(now);
    }

    method AddCard(info: CardInfo, freshId: string, now: int)
      modifies this
      ensures cards == AfterAdd(old(cards), info, freshId, now)
      ensures cardLibrary == old(cardLibrary)
      ensures old(Valid()) ==> Valid()
    {
      if old(Valid()) {
        AfterAddKeepsUnique(cards, info, freshId, now);
      }
      var existing := FirstOwned(cards, info);
      if existing.Some? {
        cards := MarkedById(cards, cards[existing.value].id);
      } else {
        cards := cards + [Card(freshId, info, now, false)];
      }
    }

    method RemoveCard(cardId: string)
      modifies this
      ensures cards == Without(old(cards), cardId)
      ensures cardLibrary == old(cardLibrary)
      ensures old(Valid()) ==> Valid()
    {
      if Valid() {
        WithoutKeepsUnique(cards, cardId);
      }
      cards := Without(cards, cardId);
    }

    method MarkAsDuplicated(cardId: string)
      modifies this
      ensures cards == MarkedById(old(cards), cardId)
      ensures cardLibrary == old(cardLibrary)
      ensures old(Valid()) ==> Valid()
    {
      MarkedByIdLaws(cards, cardId);
      cards := MarkedById(cards, cardId);
    }

    function CardsByRarity(r: Rarity): seq<Card>
      reads this
    {
      ByRarity(cards, r)
    }

    function CardsByTheme(t: Theme): seq<Card>
      reads this
    {
      ByTheme(cards, t)
    }

    function CardsBySubject(s: Subject): seq<Card>
      reads this
    {
      BySubject(cards, s)
    }

    /** The overall and per-rarity progress. A rarity's `collected` is a 0/1
        presence flag, set while walking the collection. */
    method GetCollectionProgress() returns (p: CollectionProgress)
      ensures p.total == |cardLibrary|
      ensures p.collected == |OwnedNames(cards)|
      ensures p.progress == ProgressPercent(p.collected, p.total)
      ensures forall r: Rarity ::
        p.byRarity.Get(r).total == |ByRarity(cardLibrary, r)|
        && p.byRarity.Get(r).collected == if OwnsRarity(cards, r) then 1 else 0
    {
      var total := |cardLibrary|;
      var collected := |OwnedNames(cards)|;
      var progress := if total > 0 then collected as real / total as real * 100.0 else 0.0;
      var byRarity := RarityTable(
        RarityStat(|ByRarity(cardLibrary, Common)|, 0),
        RarityStat(|ByRarity(cardLibrary, Rare)|, 0),
        RarityStat(|ByRarity(cardLibrary, Epic)|, 0),
        RarityStat(|ByRarity(cardLibrary, Legendary)|, 0));
      ghost var initial := byRarity;
      for i := 0 to |cards|
        invariant forall r: Rarity :: byRarity.Get(r).total == initial.Get(r).total
        invariant forall r: Rarity ::
          byRarity.Get(r).collected == if OwnsRarity(cards[..i], r) then 1 else 0
      {
        var rarity := cards[i].info.rarity;
        if byRarity.Get(rarity).collected == 0 {
          byRarity := byRarity.Set(rarity, byRarity.Get(rarity).(collected := 1));
        }
        forall r: Rarity
          ensures OwnsRarity(cards[..i + 1], r) <==> OwnsRarity(cards[..i], r) || r == rarity
        {
          OwnsRarityExtend(cards, i, r);
        }
      }
      assert cards[..|cards|] == cards;
      p := CollectionProgress(total, collected, progress, byRarity);
    }
  }
}
