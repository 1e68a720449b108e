/**
 * The image upload form: one picked file and an optional sort order, sent
 * as a multipart upload to the image endpoint.  Submitting without a file
 * is refused with a message and sends nothing.
 */
module ImageUploadPage {
  import opened Wrappers
  import opened Multipart
  import opened FormInputs
  import Decimal
  import Http

  /** The upload endpoint of the image API. */
  const UploadPath := "/Image/upload"

  const FileKey := "file"
  const SortOrderKey := "sortOrder"

  /** The message shown when the form is submitted without a file. */
  const NoFileMessage := "Please select a file to upload."

  /** The fields of the upload: the file, then the sort order unless it is blank. */
  function UploadFields(file: FileId, sortOrder: NumberField): (r: seq<Field>)
    ensures |r| == if sortOrder.Blank? then 1 else 2
    ensures r[0] == Field(FileKey, File(file))
  {
    [Field(FileKey, File(file))] +
    (if sortOrder.Blank? then [] else [Field(SortOrderKey, Str(Decimal.IntToString(sortOrder.n)))])
  }

  /** What a binder reads from an upload's entry list: the file and the sort order, if well formed. */
  datatype Upload = Upload(file: Option<FileId>, sortOrder: Option<int>)

  function BindUpload(fields: seq<Field>): Upload {
    var f := Lookup(fields, FileKey);
    var s := Lookup(fields, SortOrderKey);
    Upload(
      if f.Some? && f.value.File? then Some(f.value.file) else None,
      if s.Some? && s.value.Str? then Decimal.ParseInt(s.value.text) else None)
  }

  /** The entry list binds back to the picked file and, unless blank, the typed sort order. */
  lemma UploadRoundTrip(file: FileId, sortOrder: NumberField)
    ensures BindUpload(UploadFields(file, sortOrder)) ==
      Upload(Some(file), if sortOrder.Blank? then None else Some(sortOrder.n))
  {
    var fields := UploadFields(file, sortOrder);
    assert FileKey != SortOrderKey;
    if sortOrder.Num? {
      Decimal.IntToStringRoundTrip(sortOrder.n);
      assert fields[1] == Field(SortOrderKey, Str(Decimal.IntToString(sortOrder.n)));
    }
  }

  class UploadPage {
    var selectedFile: Option<FileId>
    var sortOrder: NumberField

    constructor()
      ensures selectedFile == None && sortOrder == Blank
    {
      selectedFile := None;
      sortOrder := Blank;
    }

    /** The file input changed: keep its first file, or none. */
    method HandleFileChange(files: Option<seq<FileId>>)
      modifies this
      ensures selectedFile == FirstFile(files) && sortOrder == old(sortOrder)
    {
      if files.Some? && |files.value| > 0 {
        selectedFile := Some(files.value[0]);
      } else {
        selectedFile := None;
      }
    }

    /** The sort-order input changed. */
    method HandleSortOrderChange(value: string)
      requires IsInputText(value)
      modifies this
      ensures sortOrder == FromInput(value) && selectedFile == old(selectedFile)
    {
      sortOrder := if value == "" then Blank else Num(Decimal.ParseInt(value).value);
    }

    /**
     * The form was submitted: without a file it is refused with a message;
     * otherwise the multipart upload of the file and the sort order is the
     * request sent.
     */
    method HandleSubmit() returns (r: Result<Http.Request, string>)
      ensures r.Err? <==> selectedFile.None?
      ensures r.Err? ==> r.error == NoFileMessage
      ensures r.Ok? ==> r.value == Http.RequestOf(Http.Upload(UploadPath, UploadFields(selectedFile.value, sortOrder)))
    {
      if selectedFile.None? {
        return Err(NoFileMessage);
      }
      var fd := new MultipartForm();
      fd.Append(FileKey, File(selectedFile.value));
      if sortOrder != Blank {
        fd.Append(SortOrderKey, Str(Decimal.IntToString(sortOrder.n)));
      }
      r := Ok(Http.RequestOf(Http.Upload(UploadPath, fd.entries)));
    }
  }

  /**
   * A submitted upload carries what the form shows: its entry list binds back to
   * the selected file and the sort order the input holds.
   */
  lemma SubmitDelivers(file: FileId, value: string)
    requires IsInputText(value)
    ensures var req := Http.RequestOf(Http.Upload(UploadPath, UploadFields(file, FromInput(value))));
      req.verb == Http.POST && req.url == UploadPath &&
      BindUpload(req.body.fields) == Upload(Some(file), Decimal.ParseInt(value))
  {
    UploadRoundTrip(file, FromInput(value));
  }
}
