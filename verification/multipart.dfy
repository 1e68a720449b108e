/**
 * The browser's `FormData`: an ordered list of named entries, each a text
 * value or a file.  `append` adds an entry at the end and never replaces
 * an earlier one with the same name.
 *
 * Beside the writer, this module defines the reading side a server-side
 * model binder applies to a payload: the first value under a name, and
 * every value under a name in order.
 */
module Multipart {
  import opened Wrappers

  /** A file chosen in a file input, identified by an opaque handle. */
  type FileId = nat

  datatype Value = Str(text: string) | File(file: FileId)

  datatype Field = Field(name: string, value: Value)

  /** A `FormData` object; `entries` is its list of entries in append order. */
  class MultipartForm {
    var entries: seq<Field>

    /** `new FormData()`: an empty payload. */
    constructor ()
      ensures entries == []
    {
      entries := [];
    }

    /** `fd.append(name, value)`. */
    method Append(name: string, value: Value)
      modifies this
      ensures entries == old(entries) + [Field(name, value)]
    {
      entries := entries + [Field(name, value)];
    }
  }

  /** The first value appended under `name`, as a binder reading one scalar sees it. */
  function Lookup(fields: seq<Field>, name: string): (r: Option<Value>)
    ensures r.None? <==> forall k :: 0 <= k < |fields| ==> fields[k].name != name
    ensures r.Some? ==> exists k :: 0 <= k < |fields| && fields[k] == Field(name, r.value)
  {
    if fields == [] then None
    else if fields[0].name == name then Some(fields[0].value)
    else
      var r := Lookup(fields[1..], name);
      assert r.Some? ==> exists k :: 0 <= k < |fields[1..]| && fields[1..][k] == Field(name, r.value);
      r
  }

  /** Every value appended under `name`, in append order, as a binder reading a list sees them. */
  function ValuesNamed(fields: seq<Field>, name: string): (r: seq<Value>)
    ensures |r| <= |fields|
    ensures r == [] <==> forall k :: 0 <= k < |fields| ==> fields[k].name != name
  {
    if fields == [] then []
    else if fields[0].name == name then [fields[0].value] + ValuesNamed(fields[1..], name)
    else ValuesNamed(fields[1..], name)
  }

  /** The files among `values`, in order. */
  function Files(values: seq<Value>): (r: seq<FileId>)
    ensures |r| <= |values|
  {
    if values == [] then []
    else if values[0].File? then [values[0].file] + Files(values[1..])
    else Files(values[1..])
  }

  /** A name all of whose entries carry the same value is looked up to that value. */
  lemma LookupUnique(fields: seq<Field>, name: string, at: nat, v: Value)
    requires at < |fields| && fields[at] == Field(name, v)
    requires forall k :: 0 <= k < |fields| && fields[k].name == name ==> fields[k].value == v
    ensures Lookup(fields, name) == Some(v)
  {
  }

  /** A name no entry carries is looked up to nothing. */
  lemma LookupAbsent(fields: seq<Field>, name: string)
    requires forall k :: 0 <= k < |fields| ==> fields[k].name != name
    ensures Lookup(fields, name) == None
  {
  }

  function FirstFound(x: Option<Value>, y: Option<Value>): Option<Value> {
    if x.Some? then x else y
  }

  /** Looking a name up in a payload of four consecutive parts. */
  lemma LookupFour(a: seq<Field>, b: seq<Field>, c: seq<Field>, d: seq<Field>, name: string)
    ensures Lookup(a + b + c + d, name) ==
      FirstFound(Lookup(a, name), FirstFound(Lookup(b, name), FirstFound(Lookup(c, name), Lookup(d, name))))
  {
    LookupAppend(a + b + c, d, name);
    LookupAppend(a + b, c, name);
    LookupAppend(a, b, name);
  }

  /** Reading a list off a payload of four consecutive parts. */
  lemma ValuesNamedFour(a: seq<Field>, b: seq<Field>, c: seq<Field>, d: seq<Field>, name: string)
    ensures ValuesNamed(a + b + c + d, name) ==
      ValuesNamed(a, name) + ValuesNamed(b, name) + ValuesNamed(c, name) + ValuesNamed(d, name)
  {
    ValuesNamedAppend(a + b + c, d, name);
    ValuesNamedAppend(a + b, c, name);
    ValuesNamedAppend(a, b, name);
  }

  /** A later payload part is only consulted when the earlier part lacks the name. */
  lemma {:induction false} LookupAppend(a: seq<Field>, b: seq<Field>, name: string)
    ensures Lookup(a + b, name) == if Lookup(a, name).Some? then Lookup(a, name) else Lookup(b, name)
  {
    if a != [] {
      assert (a + b)[1..] == a[1..] + b;
      LookupAppend(a[1..], b, name);
    } else {
      assert a + b == b;
    }
  }

  /** Reading a list off a concatenated payload concatenates the reads. */
  lemma {:induction false} ValuesNamedAppend(a: seq<Field>, b: seq<Field>, name: string)
    ensures ValuesNamed(a + b, name) == ValuesNamed(a, name) + ValuesNamed(b, name)
  {
    if a != [] {
      assert (a + b)[1..] == a[1..] + b;
      ValuesNamedAppend(a[1..], b, name);
    } else {
      assert a + b == b;
    }
  }

  lemma {:induction false} FilesAppend(a: seq<Value>, b: seq<Value>)
    ensures Files(a + b) == Files(a) + Files(b)
  {
    if a != [] {
      assert (a + b)[1..] == a[1..] + b;
      FilesAppend(a[1..], b);
    } else {
      assert a + b == b;
    }
  }
}
