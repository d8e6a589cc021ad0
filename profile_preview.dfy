/**
 * The parsed-profile preview (`src/components/room-matcher/parsed-profile-preview.tsx`):
 * the nine rows it shows, how each value is formatted, and the edit dialog's draft.
 */
module ProfilePreview {
  import opened Wrappers
  import opened Text
  import opened Matching

  /** The keys of a `ParsedProfile`. */
  datatype ProfileField =
    Id | City | Area | Budget | SleepSchedule | Cleanliness | NoiseTolerance | StudyHabits | FoodPref | Notes

  /** A value as `formatValue` may receive it: absent (`null` or `undefined`), a number or a string. */
  datatype FieldValue = Missing | Num(n: int) | Str(s: string)

  const NotSpecified := "Not specified"

  /** `formatValue`: absent and blank values read "Not specified", a number reads as its
      decimal text, any other string is shown as it is. */
  function FormatValue(v: FieldValue): (r: string)
    ensures v.Missing? ==> r == NotSpecified
    ensures v.Str? && AllWhitespace(v.s) ==> r == NotSpecified
    ensures v.Str? && !AllWhitespace(v.s) ==> r == v.s
    ensures v.Num? ==> CanonicalInt(r) && ParseInt(r) == Some(v.n)
  {
    match v
    case Missing => NotSpecified
    case Num(n) =>
      IntToStringRoundTrip(n);
      IntToStringCanonical(n);
      IntToString(n)
    case Str(s) =>
      TrimEmptyIffBlank(s);
      if Trim(s) == "" then NotSpecified else s
  }

  /** `profile[key]`. */
  function FieldOf(p: ParsedProfile, k: ProfileField): FieldValue {
    match k
    case Id => Str(p.id)
    case City => Str(p.city)
    case Area => Str(p.area)
    case Budget => Num(p.budgetPkr)
    case SleepSchedule => Str(p.sleepSchedule)
    case Cleanliness => Str(p.cleanliness)
    case NoiseTolerance => Str(p.noiseTolerance)
    case StudyHabits => Str(p.studyHabits)
    case FoodPref => Str(p.foodPref)
    case Notes => Str(p.notes)
  }

  /** The value has the type the profile declares for that key. */
  predicate FitsField(k: ProfileField, v: FieldValue) {
    if k == Budget then v.Num? else v.Str?
  }

  /** `{ ...prev, [key]: value }`: the key takes the new value, every other key keeps its own. */
  function WithField(p: ParsedProfile, k: ProfileField, v: FieldValue): (r: ParsedProfile)
    requires FitsField(k, v)
    ensures FieldOf(r, k) == v
    ensures forall k' :: k' != k ==> FieldOf(r, k') == FieldOf(p, k')
  {
    match k
    case Id => p.(id := v.s)
    case City => p.(city := v.s)
    case Area => p.(area := v.s)
    case Budget => p.(budgetPkr := v.n)
    case SleepSchedule => p.(sleepSchedule := v.s)
    case Cleanliness => p.(cleanliness := v.s)
    case NoiseTolerance => p.(noiseTolerance := v.s)
    case StudyHabits => p.(studyHabits := v.s)
    case FoodPref => p.(foodPref := v.s)
    case Notes => p.(notes := v.s)
  }

  /** The rows of the preview: key and caption, in display order. */
  const Rows: seq<(ProfileField, string)> := [
    (City, "City"),
    (Area, "Area"),
    (Budget, "Budget (PKR)"),
    (SleepSchedule, "Sleep schedule"),
    (Cleanliness, "Cleanliness"),
    (NoiseTolerance, "Noise tolerance"),
    (StudyHabits, "Study habits"),
    (FoodPref, "Food preference"),
    (Notes, "Notes")
  ]

  /** The keys the preview shows. */
  function ShownFields(): set<ProfileField> {
    set i | 0 <= i < |Rows| :: Rows[i].0
  }

  /** Nine rows, no key twice, every key but `id` and never `id`. */
  lemma RowsCoverEveryFieldButId()
    ensures |Rows| == 9
    ensures forall i, j :: 0 <= i < j < |Rows| ==> Rows[i].0 != Rows[j].0
    ensures forall k :: k in ShownFields() <==> k != Id
  {
    forall k: ProfileField
      ensures k != Id ==> k in ShownFields()
    {
      match k
      case City => assert Rows[0].0 == k;
      case Area => assert Rows[1].0 == k;
      case Budget => assert Rows[2].0 == k;
      case SleepSchedule => assert Rows[3].0 == k;
      case Cleanliness => assert Rows[4].0 == k;
      case NoiseTolerance => assert Rows[5].0 == k;
      case StudyHabits => assert Rows[6].0 == k;
      case FoodPref => assert Rows[7].0 == k;
      case Notes => assert Rows[8].0 == k;
      case Id =>
    }
  }

  /** What the preview lists: caption and formatted value, one pair per row, in row order. */
  function RenderRows(p: ParsedProfile): (r: seq<(string, string)>)
    ensures |r| == |Rows|
    ensures forall i :: 0 <= i < |Rows| ==> r[i] == (Rows[i].1, FormatValue(FieldOf(p, Rows[i].0)))
  {
    seq(|Rows|, i requires 0 <= i < |Rows| => (Rows[i].1, FormatValue(FieldOf(p, Rows[i].0))))
  }

  /** The preview's component state: the edit dialog's draft and whether it is open. */
  class PreviewState {
    var draft: ParsedProfile
    var dialogOpen: bool

    /** `useState(profile)` and a closed dialog. */
    constructor (profile: ParsedProfile)
      ensures draft == profile && !dialogOpen
    {
      draft := profile;
      dialogOpen := false;
    }

    /** The dialog's `onOpenChange` and its Cancel button. */
    method SetDialogOpen(open: bool)
      modifies this`dialogOpen
      ensures dialogOpen == open
    {
      dialogOpen := open;
    }

    /** `handleChange(key, value)`: one field of the draft changes, the others stay. */
    method HandleChange(k: ProfileField, v: FieldValue)
      requires FitsField(k, v)
      modifies this`draft
      ensures draft == WithField(old(draft), k, v)
    {
      draft := WithField(draft, k, v);
    }

    /** `handleSave`: the draft is handed to `onEdit` (returned here) and the dialog closes. */
    method HandleSave() returns (edited: ParsedProfile)
      modifies this`dialogOpen
      ensures edited == draft && !dialogOpen
    {
      edited := draft;
      dialogOpen := false;
    }
  }
}
