/** The `Feedback` component: its form state, the list of submissions, the stored copy of
    that list, its two event handlers, and the statistics panel it renders. */
module FeedbackComponent {
  import opened Wrappers
  import opened Records
  import opened Ratings
  import opened Aggregate

  /** The body of the statistics panel: the placeholder text, or one card per category in
      key order. A card shows the category, the average `totalRating / count` (the division
      and its two-decimal formatting are not modelled) and the count. */
  datatype PanelBody = NoFeedbackYet | Cards(cards: seq<Entry>)

  /** The statistics panel: the "Feedback Received" figure and the body. */
  datatype Panel = Panel(received: nat, body: PanelBody)

  /** The panel drawn from the list and its grouping. */
  function StatsPanel(all: seq<Record>, g: Grouping): (p: Panel)
    ensures p.received == |all|
    ensures p.body.NoFeedbackYet? <==> |g| == 0
    ensures p.body.Cards? ==> p.body.cards == g
  {
    Panel(|all|, if |g| > 0 then Cards(g) else NoFeedbackYet)
  }

  /** What the panel shows for a list: the placeholder exactly when the list is empty, and
      otherwise one card per category in first-occurrence order, each with a non-zero
      count, the counts adding up to the figure in the header. */
  lemma PanelOfList(all: seq<Record>)
    ensures var p := StatsPanel(all, Grouped(all));
      && p.received == |all|
      && (p.body.NoFeedbackYet? <==> |all| == 0)
      && (p.body.Cards? ==>
            && |p.body.cards| == |Categories(all)|
            && (forall i :: 0 <= i < |p.body.cards| ==>
                  p.body.cards[i].category == Categories(all)[i] && p.body.cards[i].bucket.count >= 1)
            && SumCounts(p.body.cards) == p.received)
  {
    GroupedEmptyIff(all);
    GroupedCounts(all);
    GroupedCountsSumToLength(all);
  }

  class Feedback {
    /** The current contents of the form. */
    var form: Record
    /** Every submission so far, oldest first. */
    var all: seq<Record>
    /** The list as last written under the storage key "feedback". */
    var stored: seq<Record>

    /** The state before the mount effect runs: a blank form and an empty list; `persisted`
        is whatever the storage key already holds. */
    constructor (persisted: seq<Record>)
      ensures form == Empty && all == [] && stored == persisted
    {
      form := Empty;
      all := [];
      stored := persisted;
    }

    /** A change event from the control for field f: that field takes the new value and the
        other four keep theirs. */
    method HandleChange(f: Field, value: string)
      modifies this
      ensures form == With(old(form), f, value)
      ensures Get(form, f) == value
      ensures forall g: Field :: g != f ==> Get(form, g) == Get(old(form), g)
      ensures all == old(all) && stored == old(stored)
    {
      form := With(form, f, value);
    }

    /** Submission: the form's record is appended to the list, the whole list is written to
        storage, and the form is reset to blank. */
    method HandleSubmit()
      modifies this
      ensures all == old(all) + [old(form)]
      ensures |all| == |old(all)| + 1
      ensures all[..|old(all)|] == old(all) && all[|old(all)|] == old(form)
      ensures stored == all
      ensures form == Empty
    {
      var updated := all + [form];
      stored := updated;
      all := updated;
      form := Empty;
    }

    /** One render of the statistics panel: the grouping is recomputed from the list. */
    method Render() returns (p: Panel)
      ensures p == StatsPanel(all, Grouped(all))
    {
      var g := GroupFeedbackByType(all);
      p := StatsPanel(all, g);
    }
  }

  /** A session in which each record is typed in control by control and then submitted:
      the list ends up being exactly the records entered, storage holds the same list once
      anything was submitted, and the form is blank again. */
  method SubmitEach(persisted: seq<Record>, entries: seq<Record>) returns (c: Feedback)
    ensures c.all == entries
    ensures |entries| > 0 ==> c.stored == entries
    ensures c.form == Empty
  {
    c := new Feedback(persisted);
    for i := 0 to |entries|
      invariant c.all == entries[..i] && c.form == Empty
      invariant i > 0 ==> c.stored == c.all
    {
      var e := entries[i];
      c.HandleChange(FeedbackType, e.feedbackType);
      c.HandleChange(Name, e.name);
      c.HandleChange(Email, e.email);
      c.HandleChange(Comment, e.comment);
      c.HandleChange(Rating, e.rating);
      FillingEveryFieldGivesRecord(e);
      c.HandleSubmit();
      assert entries[..i + 1] == entries[..i] + [e];
    }
    assert entries[..|entries|] == entries;
  }
}
