/**
 * The second revision of the result type: a closed hierarchy whose base
 * record has two fields with defaults, `data` (the empty list) and
 * `message` (the empty string). Each variant sets at most one of them.
 */
module ApiExecutionEvents {
  import opened NetworkModel

  datatype Variant = SuccessVariant | ErrorVariant | EmptyVariant | LoadingVariant

  /** The base record's fields, tagged with the variant that built them. */
  datatype EventRecord = EventRecord(variant: Variant, data: seq<Article>, message: string)

  /** The field values a variant leaves at their defaults. */
  predicate HasDefaults(e: EventRecord)
  {
    && (e.variant != SuccessVariant ==> e.data == [])
    && (e.variant != ErrorVariant ==> e.message == "")
  }

  /** Only the records the four variants can build. */
  type ApiExecutionEvent = e: EventRecord | HasDefaults(e) witness EventRecord(EmptyVariant, [], "")

  function Success(data: seq<Article>): (e: ApiExecutionEvent)
    ensures e.variant == SuccessVariant && HasDefaults(e)
    ensures e.data == data
  {
    EventRecord(SuccessVariant, data, "")
  }

  function Error(message: string): (e: ApiExecutionEvent)
    ensures e.variant == ErrorVariant && HasDefaults(e)
    ensures e.message == message
  {
    EventRecord(ErrorVariant, [], message)
  }

  function Empty(): (e: ApiExecutionEvent)
    ensures e.variant == EmptyVariant && HasDefaults(e)
  {
    EventRecord(EmptyVariant, [], "")
  }

  function Loading(): (e: ApiExecutionEvent)
    ensures e.variant == LoadingVariant && HasDefaults(e)
  {
    EventRecord(LoadingVariant, [], "")
  }

  /** Every event is one of the four constructions, decided by its variant. */
  lemma Exhaustive(e: ApiExecutionEvent)
    ensures e.variant == SuccessVariant ==> e == Success(e.data)
    ensures e.variant == ErrorVariant ==> e == Error(e.message)
    ensures e.variant == EmptyVariant ==> e == Empty()
    ensures e.variant == LoadingVariant ==> e == Loading()
  {
  }

  /** A success reports an empty message, an error an empty list; each keeps its own payload. */
  lemma DefaultFields(d: seq<Article>, m: string)
    ensures Success(d).data == d && Success(d).message == ""
    ensures Error(m).message == m && Error(m).data == []
    ensures Empty().data == [] && Empty().message == ""
    ensures Loading().data == [] && Loading().message == ""
  {
  }

  /** An error with an empty message is still told apart from `Empty` by its variant. */
  lemma ErrorWithEmptyMessageIsNotEmpty()
    ensures Error("") != Empty()
    ensures !HasDefaults(EventRecord(EmptyVariant, [], "x"))
    ensures Error("").data == Empty().data && Error("").message == Empty().message
  {
  }
}
