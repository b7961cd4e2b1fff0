/**
 * Where an attached document is recorded. Only the path string is modelled; the download
 * itself and the creation of directories are I/O.
 */
module Attachment {
  import opened Wrappers
  import opened Text
  import opened Trips
  import opened Session

  const FilesDir: string := "files"

  /** The path `collect_documents` and `receive_document_edit` record:
      `os.path.join(FILES_DIR, f"{safe_name}_{file_name}")`. */
  function DocumentPath(tripName: string, fileName: string): (p: string)
    ensures tripName == [] || tripName[0] != '/' ==>
      p == FilesDir + "/" + ReplaceSpaces(tripName) + "_" + fileName
  {
    PathJoin(FilesDir, ReplaceSpaces(tripName) + "_" + fileName)
  }

  /** The path `handle_document` records: the document's own name inside a directory named
      after the trip, `os.path.join(os.path.join(FILES_DIR, safe_trip), file_name)`. */
  function CaptionPath(tripName: string, fileName: string): (p: string)
    ensures (tripName != [] && tripName[0] != '/' && tripName[|tripName| - 1] != '/' &&
      (fileName == [] || fileName[0] != '/')) ==>
      p == FilesDir + "/" + ReplaceSpaces(tripName) + "/" + fileName
    ensures fileName != [] && fileName[0] == '/' ==> p == fileName
  {
    var safe := ReplaceSpaces(tripName);
    var folder := PathJoin(FilesDir, safe);
    assert safe != [] ==> folder[|folder| - 1] == safe[|safe| - 1];
    PathJoin(folder, fileName)
  }

  /** `handle_document` (restricted), a document sent outside any conversation with the trip
      name as its caption: the store write it performs, if any. */
  function HandleDocument(authorized: bool, caption: Option<string>, doc: Document, data: TripMap)
    : (saved: Option<TripMap>)
    ensures saved.Some? <==>
      authorized && caption.Some? && caption.value != [] && Has(data, caption.value)
    ensures saved.Some? ==> saved.value == AppendFile(data, caption.value, CaptionPath(caption.value, doc.fileName))
  {
    if !authorized then None
    else
      var tripName := caption.GetOr("");
      if tripName == [] then None
      else if !Has(data, tripName) then None
      else Some(AppendFile(data, tripName, CaptionPath(tripName, doc.fileName)))
  }

  /** A direct attachment adds exactly one path, at the end of the named trip's list, and
      changes no other trip and no other field. */
  lemma DirectAttachmentAppendsOne(caption: string, doc: Document, data: TripMap)
    requires caption != [] && Has(data, caption)
    ensures var saved := HandleDocument(true, Some(caption), doc, data).value;
      Names(saved) == Names(data) &&
      FilesOf(Get(saved, caption)) == FilesOf(Get(data, caption)) + [CaptionPath(caption, doc.fileName)] &&
      Get(saved, caption).(files := None) == Get(data, caption).(files := None) &&
      forall n :: n != caption && Has(data, n) ==> Get(saved, n) == Get(data, n)
  {
  }
}
