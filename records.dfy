/** The feedback record held by the form and stored in the list of submissions. */
module Records {
  import opened Wrappers

  /** One submission: the five string fields of the form state. */
  datatype Record = Record(name: string, email: string, feedbackType: string, rating: string, comment: string)

  /** The form controls, one per record field, identified by their `name` attribute. */
  datatype Field = Name | Email | FeedbackType | Rating | Comment

  /** The initial form state and the state after every submission: every field blank. */
  const Empty: Record := Record("", "", "", "", "")

  /** The `name` attribute a control carries in the markup. */
  function FieldName(f: Field): string {
    match f
    case Name => "name"
    case Email => "email"
    case FeedbackType => "feedbackType"
    case Rating => "rating"
    case Comment => "comment"
  }

  /** The control an event's `name` refers to, if any. */
  function FieldNamed(s: string): (r: Option<Field>)
    ensures r.Some? ==> FieldName(r.value) == s
    ensures r.None? ==> forall f: Field :: FieldName(f) != s
  {
    if s == "name" then Some(Name)
    else if s == "email" then Some(Email)
    else if s == "feedbackType" then Some(FeedbackType)
    else if s == "rating" then Some(Rating)
    else if s == "comment" then Some(Comment)
    else None
  }

  /** The value of one field. */
  function Get(r: Record, f: Field): string {
    match f
    case Name => r.name
    case Email => r.email
    case FeedbackType => r.feedbackType
    case Rating => r.rating
    case Comment => r.comment
  }

  /** The merge `{ ...record, [name]: value }` for a known field name. */
  function With(r: Record, f: Field, v: string): (r': Record)
    ensures Get(r', f) == v
    ensures forall g: Field :: g != f ==> Get(r', g) == Get(r, g)
  {
    match f
    case Name => r.(name := v)
    case Email => r.(email := v)
    case FeedbackType => r.(feedbackType := v)
    case Rating => r.(rating := v)
    case Comment => r.(comment := v)
  }

  /** Entering every field of `r`, one change event per control, into a blank form yields `r`. */
  lemma FillingEveryFieldGivesRecord(r: Record)
    ensures With(With(With(With(With(Empty, FeedbackType, r.feedbackType), Name, r.name),
                                 Email, r.email), Comment, r.comment), Rating, r.rating) == r
  {
  }
}
