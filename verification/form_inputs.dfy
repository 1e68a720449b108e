/**
 * What the admin pages read from their form inputs: the `number | ''` state
 * behind the optional sort-order inputs (an empty input is kept as the empty
 * string, anything else as the number the input holds; the controlled input
 * renders the state back into its text box, so rendering and reading must
 * agree), and the files picked in a file input.
 */
module FormInputs {
  import opened Wrappers
  import opened Multipart
  import Decimal

  /** `''` (nothing typed) or a number. */
  datatype NumberField = Blank | Num(n: int)

  /** The text a number input can hold in this model: empty or an integer numeral. */
  predicate IsInputText(value: string) {
    value == "" || Decimal.IsNumeral(value)
  }

  /** `value === '' ? '' : Number(value)`. */
  function FromInput(value: string): (f: NumberField)
    requires IsInputText(value)
    ensures f.Blank? <==> value == ""
    ensures f.Num? ==> Decimal.ParseInt(value) == Some(f.n)
  {
    if value == "" then Blank else Num(Decimal.ParseInt(value).value)
  }

  /** What the controlled input shows for a state. */
  function Render(f: NumberField): (value: string)
    ensures IsInputText(value)
    ensures value == "" <==> f.Blank?
  {
    match f
    case Blank => ""
    case Num(n) => Decimal.IntToString(n)
  }

  /** Typing back what the input shows leaves the state unchanged. */
  lemma FromRenderedInput(f: NumberField)
    ensures FromInput(Render(f)) == f
  {
    if f.Num? {
      Decimal.IntToStringRoundTrip(f.n);
    }
  }

  /** `field === '' ? null : field`: the sort order an API call receives. */
  function SortOrderArg(f: NumberField): (r: Nullable<int>)
    ensures r.Null? <==> f.Blank?
    ensures r.Present? <==> f.Num?
    ensures f.Num? ==> r.value == f.n
  {
    match f
    case Blank => Null
    case Num(n) => Present(n)
  }

  /**
   * The file of a single-file input: the first picked file, or none when the
   * input has no file list or an empty one.
   */
  function FirstFile(files: Option<seq<FileId>>): (r: Option<FileId>)
    ensures r.None? <==> files.None? || files.value == []
    ensures r.Some? ==> r.value == files.value[0]
  {
    if files.Some? && |files.value| > 0 then Some(files.value[0]) else None
  }

  /** The files of a multiple-file input, in the order picked; none without a file list. */
  function AllFiles(files: Option<seq<FileId>>): (r: seq<FileId>)
    ensures files.Some? ==> r == files.value
    ensures files.None? ==> r == []
  {
    if files.Some? then files.value else []
  }

  /** The single-file input keeps the head of what the multiple-file input keeps. */
  lemma FirstOfAll(files: Option<seq<FileId>>)
    ensures FirstFile(files).Some? <==> AllFiles(files) != []
    ensures FirstFile(files).Some? ==> FirstFile(files).value == AllFiles(files)[0]
  {
  }
}
