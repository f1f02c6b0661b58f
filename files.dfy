/** What the browser hands a page when the user picks a file. */
module Files {
  /** A browser `File`: its name, its MIME type and its size in bytes. */
  datatype File = File(name: string, mimeType: string, size: nat)
}
