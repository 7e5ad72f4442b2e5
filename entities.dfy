/** The records the document-management pages keep in their state: categories, documents
    and users as the back end lists them, and the file a visitor picks for upload. */
module Entities {
  import opened Js

  datatype Category = Category(id: string, name: string, description: Option<string>)

  datatype Document = Document(
    id: string,
    title: string,
    fileType: string,
    fileName: string,
    uploadDate: string,
    uploadedBy: string,
    fileUrl: string,
    categories: Option<seq<Category>>)

  datatype User = User(
    id: string,
    email: string,
    fullName: string,
    role: string,
    categories: Option<seq<Category>>)

  /** A file chosen in a file input or dropped on the page (its contents and size are not
      modelled). */
  datatype File = File(name: string)

  /** `record.categories?.map(c => c.id) || []`: the ids of the record's categories in their
      order, or no ids when the record has no category list. */
  function CategoryIds(cats: Option<seq<Category>>): (ids: seq<string>)
    ensures cats.None? ==> ids == []
    ensures cats.Some? ==> |ids| == |cats.value| && forall i :: 0 <= i < |ids| ==> ids[i] == cats.value[i].id
  {
    if cats.None? then [] else seq(|cats.value|, i requires 0 <= i < |cats.value| => cats.value[i].id)
  }
}
