/**
 * One column of the voting board: the option cards of a track, each showing
 * whether its option is the one the flag service currently resolves ("winning")
 * and carrying the vote its activation sends.
 */
module TrackColumn {

  /** An option as the column receives it: `{ id, name }`. */
  datatype OptionEntry = OptionEntry(id: string, name: string)

  /** The arguments a card passes to the column's `onVote` callback. */
  datatype VoteCall = VoteCall(trackId: string, optionId: string)

  /** What the column hands to one option card. */
  datatype Card = Card(key: string, cardLabel: string, isSelected: bool, isWinning: bool, onVote: VoteCall)

  function CardFor(trackId: string, opt: OptionEntry, currentOption: string): Card
  {
    Card(opt.id, opt.name, false, currentOption == opt.id, VoteCall(trackId, opt.id))
  }

  /** The cards of a column, one per option, in the order of `options`. */
  function Cards(trackId: string, options: seq<OptionEntry>, currentOption: string): (cards: seq<Card>)
    ensures |cards| == |options|
  {
    if options == [] then []
    else [CardFor(trackId, options[0], currentOption)] + Cards(trackId, options[1..], currentOption)
  }

  /**
   * The i-th card belongs to the i-th option: it is keyed and labelled (`cardLabel`, the card's `label`) by it, is
   * never marked selected, wins exactly when the current option is its id, and
   * votes for its own option on its own track.
   */
  lemma {:induction false} CardsAt(trackId: string, options: seq<OptionEntry>, currentOption: string, i: nat)
    requires i < |options|
    ensures var c := Cards(trackId, options, currentOption)[i];
      && c.key == options[i].id
      && c.cardLabel == options[i].name
      && !c.isSelected
      && (c.isWinning <==> currentOption == options[i].id)
      && c.onVote == VoteCall(trackId, options[i].id)
  {
    if i > 0 {
      CardsAt(trackId, options[1..], currentOption, i - 1);
    }
  }

  predicate DistinctIds(options: seq<OptionEntry>)
  {
    forall i, j :: 0 <= i < j < |options| ==> options[i].id != options[j].id
  }

  /** With distinct option ids, at most one card of a column is winning. */
  lemma AtMostOneWinning(trackId: string, options: seq<OptionEntry>, currentOption: string, i: nat, j: nat)
    requires DistinctIds(options)
    requires i < |options| && j < |options|
    requires Cards(trackId, options, currentOption)[i].isWinning
    requires Cards(trackId, options, currentOption)[j].isWinning
    ensures i == j
  {
    CardsAt(trackId, options, currentOption, i);
    CardsAt(trackId, options, currentOption, j);
  }

  /** Some card is winning exactly when the current option is one of the option ids. */
  lemma SomeCardWinsIff(trackId: string, options: seq<OptionEntry>, currentOption: string)
    ensures (exists i :: 0 <= i < |options| && Cards(trackId, options, currentOption)[i].isWinning)
        <==> (exists i :: 0 <= i < |options| && options[i].id == currentOption)
  {
    var cards := Cards(trackId, options, currentOption);
    forall i | 0 <= i < |options|
      ensures cards[i].isWinning <==> options[i].id == currentOption
    {
      CardsAt(trackId, options, currentOption, i);
    }
    if i :| 0 <= i < |options| && cards[i].isWinning {
      CardsAt(trackId, options, currentOption, i);
      assert options[i].id == currentOption;
    }
    if i :| 0 <= i < |options| && options[i].id == currentOption {
      CardsAt(trackId, options, currentOption, i);
      assert cards[i].isWinning;
    }
  }
}
