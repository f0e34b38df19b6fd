/** The card collection page (src/pages/Cards.tsx): the owned cards filtered
    by rarity, by theme and by a case-insensitive search on name or description. */
module CardsPage {
  import opened Seqs
  import opened Text
  import opened CardStore

  /** A filter drop-down: `'all'` or one value. */
  datatype Choice<T> = All | Only(value: T)

  predicate Admits<T(==)>(c: Choice<T>, x: T) {
    c.All? || c.value == x
  }

  /** `searchTerm === '' || name or description (lower-cased) includes the term (lower-cased)`. */
  predicate MatchesSearch(c: Card, term: string) {
    term == "" || Includes(Lower(c.info.name), Lower(term)) || Includes(Lower(c.info.description), Lower(term))
  }

  /** The predicate `filteredCards` applies to each card. */
  predicate Shown(c: Card, rarity: Choice<Rarity>, theme: Choice<Theme>, term: string) {
    Admits(rarity, c.info.rarity) && Admits(theme, c.info.theme) && MatchesSearch(c, term)
  }

  /** `filteredCards`. The contract fixes the result exactly when no card
      repeats, which the store's `UniquePairs` invariant guarantees. */
  function Filtered(cards: seq<Card>, rarity: Choice<Rarity>, theme: Choice<Theme>, term: string): (r: seq<Card>)
    ensures IsSubseq(r, cards)
    ensures forall i :: 0 <= i < |r| ==> Admits(rarity, r[i].info.rarity) && Admits(theme, r[i].info.theme)
    ensures forall i :: 0 <= i < |r| ==> MatchesSearch(r[i], term)
    ensures forall i :: 0 <= i < |cards| && Shown(cards[i], rarity, theme, term) ==> cards[i] in r
  {
    Filter(cards, (c: Card) => Shown(c, rarity, theme, term))
  }

  /** With every filter open the page shows the whole collection. */
  lemma NoFilterShowsAll(cards: seq<Card>)
    ensures Filtered(cards, All, All, "") == cards
  {
    FilterAll(cards, (c: Card) => Shown(c, All, All, ""));
  }

  /** Search ignores case: terms that lower-case alike show the same cards. */
  lemma SearchIgnoresCase(cards: seq<Card>, rarity: Choice<Rarity>, theme: Choice<Theme>, t1: string, t2: string)
    requires Lower(t1) == Lower(t2)
    ensures Filtered(cards, rarity, theme, t1) == Filtered(cards, rarity, theme, t2)
  {
    assert |t1| == |t2|;
    FilterSamePredicate(cards, (c: Card) => Shown(c, rarity, theme, t1), (c: Card) => Shown(c, rarity, theme, t2));
  }

  /** Typing a search term only hides cards: the result is an ordered
      subsequence of what the empty term shows. */
  lemma SearchOnlyNarrows(cards: seq<Card>, rarity: Choice<Rarity>, theme: Choice<Theme>, term: string)
    ensures IsSubseq(Filtered(cards, rarity, theme, term), Filtered(cards, rarity, theme, ""))
  {
    FilterStronger(cards, (c: Card) => Shown(c, rarity, theme, term), (c: Card) => Shown(c, rarity, theme, ""));
  }

  /** A rarity choice alone shows exactly the store's rarity getter. */
  lemma RarityFilterIsGetter(cards: seq<Card>, r: Rarity)
    ensures Filtered(cards, Only(r), All, "") == ByRarity(cards, r)
  {
    FilterSamePredicate(cards, (c: Card) => Shown(c, Only(r), All, ""), (c: Card) => c.info.rarity == r);
  }
}
