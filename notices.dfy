/**
 * The message boxes the pages pop up, recorded as values. A message box
 * has a title and a text; the model keeps the title and the datum the
 * text is about (a routine name, a path, an exception message), not the
 * full wording.
 */
module Notices {
  import opened Text

  datatype Notice =
    | Information(title: String, about: String)
    | Warning(title: String, about: String)
    | Error(title: String, about: String)
      /** `show_internal_error(e)` for an exception no handler expected. */
    | InternalError(about: String)
      /** The closing "Successfully performed ..." box of an automatic QC run. */
    | QcSummary(fileCount: nat, routines: seq<String>)
}
