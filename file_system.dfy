/** The file ports the patch engine reads and writes through, and the in-memory
    file map (src/infrastructure/patch/in-memory-file-system.ts) that stands in for
    the disk. */
module FileSystems {
  import opened Wrappers

  /** A file-system failure as the patch engine receives it: a type tag such as
      `FILE_NOT_FOUND`, `READ_ERROR` or `WRITE_ERROR`, and the optional fields. */
  datatype FileSystemError = FileSystemError(kind: string, filePath: Option<string>, message: Option<string>)

  const FileNotFoundKind: string := "FILE_NOT_FOUND"
  const ReadErrorKind: string := "READ_ERROR"
  const WriteErrorKind: string := "WRITE_ERROR"

  /** What `readFile` answers for a path of the file map. */
  function Lookup(files: map<string, string>, filePath: string): (r: Result<string, FileSystemError>)
    ensures r.Ok? <==> filePath in files
    ensures r.Ok? ==> r.value == files[filePath]
    ensures r.Err? ==> r.error == FileSystemError(FileNotFoundKind, Some(filePath), None)
  {
    if filePath in files then Ok(files[filePath])
    else Err(FileSystemError(FileNotFoundKind, Some(filePath), None))
  }

  /** A read after a write returns exactly what was written, and the write leaves
      every other path as it was. */
  lemma ReadAfterWrite(files: map<string, string>, filePath: string, content: string, other: string)
    ensures Lookup(files[filePath := content], filePath) == Ok(content)
    ensures other != filePath ==> Lookup(files[filePath := content], other) == Lookup(files, other)
  {
  }

  class InMemoryFileSystem {
    var files: map<string, string>

    constructor()
      ensures files == map[]
    {
      files := map[];
    }

    /** `readFile`: the stored content, or FILE_NOT_FOUND carrying the path. */
    method ReadFile(filePath: string) returns (r: Result<string, FileSystemError>)
      ensures r == Lookup(files, filePath)
    {
      if filePath in files {
        r := Ok(files[filePath]);
      } else {
        r := Err(FileSystemError(FileNotFoundKind, Some(filePath), None));
      }
    }

    /** `writeFile`: stores the content and always succeeds. */
    method WriteFile(filePath: string, content: string) returns (r: Result<(), FileSystemError>)
      modifies this
      ensures files == old(files)[filePath := content]
      ensures r == Ok(())
    {
      files := files[filePath := content];
      r := Ok(());
    }

    /** `setFile` */
    method SetFile(filePath: string, content: string)
      modifies this
      ensures files == old(files)[filePath := content]
    {
      files := files[filePath := content];
    }

    /** `getFile`: the stored content, or the empty string for a missing path. */
    method GetFile(filePath: string) returns (content: string)
      ensures filePath in files ==> content == files[filePath]
      ensures filePath !in files ==> content == ""
    {
      content := if filePath in files then files[filePath] else "";
    }

    /** `hasFile` */
    method HasFile(filePath: string) returns (present: bool)
      ensures present <==> filePath in files
    {
      present := filePath in files;
    }

    /** `clear`: afterwards every path is missing. */
    method Clear()
      modifies this
      ensures files == map[]
      ensures forall p :: Lookup(files, p).Err?
    {
      files := map[];
    }
  }
}
