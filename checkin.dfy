/** The daily check-in page: a quick form with the mood alone and a
    detailed one with the other scales and the journal fields, both
    validated to the 1–10 scale; the comma-separated trigger text turned
    into a list; and no form at all once today's check-in exists. */
module CheckIn {
  import opened Wrappers
  import opened Seqs
  import opened Text
  import opened Storage
  import opened Identity
  import opened Mood

  /** `z.number().min(1).max(10)`. */
  predicate OnScale(n: int) {
    1 <= n <= 10
  }

  /** The same, `.optional()`. */
  predicate OptionalOnScale(n: Option<int>) {
    n.None? || OnScale(n.value)
  }

  /** The values of the detailed form. */
  datatype DetailedForm = DetailedForm(
    moodScore: int,
    energy: Option<int>,
    anxiety: Option<int>,
    sleep: Option<int>,
    notes: Option<string>,
    triggers: Option<string>,
    gratitude: Option<string>)

  /** The trigger text split at commas, each piece trimmed and empty pieces
      dropped; no list at all when the text is empty or absent. */
  function ParseTriggers(text: Option<string>): (r: Option<seq<string>>)
    ensures r.Some? <==> Truthy(text)
    ensures r.Some? ==> forall k :: 0 <= k < |r.value| ==>
      r.value[k] != "" && ',' !in r.value[k] && Trimmed(r.value[k])
  {
    if !Truthy(text) then None
    else
      var pieces := Map(Split(text.value, ','), Trim);
      forall k | 0 <= k < |pieces| ensures ',' !in pieces[k] && Trimmed(pieces[k]) {
        TrimTrimmed(Split(text.value, ',')[k]);
      }
      Some(Filter(pieces, (t: string) => t != ""))
  }

  /** A list of trimmed, non-empty triggers without commas, typed with
      commas between them, is read back as that list. */
  lemma ParseJoinedTriggers(triggers: seq<string>)
    requires |triggers| >= 1
    requires forall k :: 0 <= k < |triggers| ==> triggers[k] != "" && ',' !in triggers[k] && Trimmed(triggers[k])
    ensures ParseTriggers(Some(Join(triggers, ','))) == Some(triggers)
  {
    var text := Join(triggers, ',');
    assert text != "" by {
      if |triggers| == 1 {
        assert text == triggers[0];
      } else {
        JoinFirstPiece(triggers, ',');
      }
    }
    assert Split(text, ',') == triggers by {
      SplitJoin(triggers, ',');
    }
    assert Map(triggers, Trim) == triggers by {
      forall k | 0 <= k < |triggers| ensures Trim(triggers[k]) == triggers[k] {
        TrimTrimmed(triggers[k]);
      }
    }
    FilterAll(triggers, (t: string) => t != "");
  }

  /** A text of commas and white space alone gives an empty list, not
      `undefined`: the check-in then carries no trigger. */
  lemma SeparatorsOnlyGiveEmptyList(text: string)
    requires text != ""
    requires forall i :: 0 <= i < |text| ==> text[i] == ',' || IsSpace(text[i])
    ensures ParseTriggers(Some(text)) == Some([])
  {
    var parts := Split(text, ',');
    var pieces := Map(parts, Trim);
    forall k | 0 <= k < |parts| ensures pieces[k] == "" {
      BlankPiece(text, parts, k);
      TrimEmptyIffBlank(parts[k]);
    }
    assert Filter(pieces, (t: string) => t != "") == [];
  }

  /** Each piece of a split is made of characters of the text. */
  lemma BlankPiece(text: string, parts: seq<string>, k: nat)
    requires parts == Split(text, ',') && k < |parts|
    requires forall i :: 0 <= i < |text| ==> text[i] == ',' || IsSpace(text[i])
    ensures forall i :: 0 <= i < |parts[k]| ==> IsSpace(parts[k][i])
  {
    forall i | 0 <= i < |parts[k]| ensures IsSpace(parts[k][i]) {
      PieceCharInText(parts, k, i);
    }
  }

  /** A character of a piece is a character of the joined text. */
  lemma {:induction false} PieceCharInText(parts: seq<string>, k: nat, i: nat)
    requires |parts| >= 1 && k < |parts| && i < |parts[k]|
    ensures parts[k][i] in Join(parts, ',')
    decreases k
  {
    if |parts| > 1 {
      JoinFirstPiece(parts, ',');
      var s := Join(parts, ',');
      if k == 0 {
        assert s[i] == parts[0][i];
      } else {
        PieceCharInText(parts[1..], k - 1, i);
        assert s[|parts[0]| + 1..] == Join(parts[1..], ',');
      }
    }
  }

  /** `onQuickSubmit`: a valid form submits the mood alone, as a quick
      check-in. */
  function QuickSubmission(moodScore: int): (r: Option<MoodInput>)
    ensures r.Some? <==> OnScale(moodScore)
    ensures r.Some? ==>
      r.value.checkInType == Quick && r.value.scores.mood == moodScore &&
      r.value.scores.energy.None? && r.value.scores.anxiety.None? && r.value.scores.sleep.None? &&
      r.value.details == Details(None, None, None)
  {
    if !OnScale(moodScore) then None
    else Some(MoodInput(Scores(moodScore, None, None, None), Details(None, None, None), Quick))
  }

  /** `onDetailedSubmit`: a valid form submits every field, the triggers
      parsed, as a detailed check-in. */
  function DetailedSubmission(f: DetailedForm): (r: Option<MoodInput>)
    ensures r.Some? <==>
      OnScale(f.moodScore) && OptionalOnScale(f.energy) && OptionalOnScale(f.anxiety) && OptionalOnScale(f.sleep)
    ensures r.Some? ==>
      r.value.checkInType == Detailed &&
      r.value.scores == Scores(f.moodScore, f.energy, f.anxiety, f.sleep) &&
      r.value.details.notes == f.notes && r.value.details.gratitude == f.gratitude &&
      r.value.details.triggers == ParseTriggers(f.triggers)
  {
    if !(OnScale(f.moodScore) && OptionalOnScale(f.energy) && OptionalOnScale(f.anxiety) && OptionalOnScale(f.sleep)) then None
    else Some(MoodInput(Scores(f.moodScore, f.energy, f.anxiety, f.sleep),
                        Details(f.notes, ParseTriggers(f.triggers), f.gratitude), Detailed))
  }

  /** Every check-in the page submits has its scales on the 1–10 scale. */
  lemma SubmittedScalesOnScale(moodScore: int, f: DetailedForm)
    ensures var q := QuickSubmission(moodScore); q.Some? ==> OnScale(q.value.scores.mood)
    ensures var d := DetailedSubmission(f); d.Some? ==>
      OnScale(d.value.scores.mood) && OptionalOnScale(d.value.scores.energy) &&
      OptionalOnScale(d.value.scores.anxiety) && OptionalOnScale(d.value.scores.sleep)
  {
  }

  datatype View = Loading | AlreadyCheckedIn(entry: MoodEntry) | CheckInForm

  /** What the page shows: a spinner until today's check-in was looked
      up, its summary when there is one, the forms otherwise. A failed
      lookup reads as no check-in. */
  function PageView(loadingToday: bool, lookup: Result<Option<MoodEntry>, ServiceError>): (v: View)
    ensures v.CheckInForm? <==> !loadingToday && (lookup.Failure? || lookup.value.None?)
    ensures v.AlreadyCheckedIn? <==> !loadingToday && lookup.Success? && lookup.value.Some?
    ensures v.AlreadyCheckedIn? ==> v.entry == lookup.value.value
  {
    if loadingToday then Loading
    else match lookup
      case Success(Some(entry)) => AlreadyCheckedIn(entry)
      case _ => CheckInForm
  }
}
