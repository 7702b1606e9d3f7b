/** One source file: its identity (source path, path relative to the source
    directory, destination path) and its in-memory content. */
module Asset {
  import opened Options
  import opened Paths

  /** The file-system operation an asset asks for. File I/O itself is outside the
      model; `content` is `None` while the JavaScript field is still undefined. */
  datatype FileEffect =
    | WriteFile(destination: Path, content: Option<string>)
    | CopyFile(source: Path, destination: Path)

  class Asset {
    const sourceFilePath: Path
    const relativePath: seq<Segment>
    const destinationFilePath: Path
    var content: Option<string>

    /** The destination is derived once, from the source path and the two
        directories the transpiler was configured with. */
    constructor (sourceFilePath: Path, srcDirPath: Path, destDirPath: Path)
      ensures this.sourceFilePath == sourceFilePath
      ensures relativePath == Relative(srcDirPath, sourceFilePath)
      ensures destinationFilePath == Resolve(destDirPath, relativePath)
      ensures content == None
      ensures IsNormal(sourceFilePath) && |srcDirPath| <= |sourceFilePath| &&
              sourceFilePath[..|srcDirPath|] == srcDirPath ==>
                relativePath == sourceFilePath[|srcDirPath|..] &&
                destinationFilePath == destDirPath + relativePath
    {
      if IsNormal(sourceFilePath) && |srcDirPath| <= |sourceFilePath| &&
         sourceFilePath[..|srcDirPath|] == srcDirPath {
        var rel := sourceFilePath[|srcDirPath|..];
        assert sourceFilePath == srcDirPath + rel;
        assert IsNormal(rel) by {
          forall i | 0 <= i < |rel| ensures IsPlainSegment(rel[i]) {
            assert rel[i] == sourceFilePath[|srcDirPath| + i];
          }
        }
        ReRootNested(srcDirPath, destDirPath, rel);
      }
      this.sourceFilePath := sourceFilePath;
      relativePath := Relative(srcDirPath, sourceFilePath);
      destinationFilePath := Resolve(destDirPath, Relative(srcDirPath, sourceFilePath));
      content := None;
    }

    /** `read()`: `text` is what the file system returns for `sourceFilePath`. */
    method Read(text: string)
      modifies this
      ensures content == Some(text)
    {
      content := Some(text);
    }

    method UpdateFileContent(newContent: string)
      modifies this
      ensures content == Some(newContent)
    {
      content := Some(newContent);
    }

    /** `write()`: writes the current content to the destination; no field changes. */
    method Write() returns (effect: FileEffect)
      ensures effect == WriteFile(destinationFilePath, content)
    {
      effect := WriteFile(destinationFilePath, content);
    }

    /** `copy()`: copies the source file to the destination; no field changes. */
    method Copy() returns (effect: FileEffect)
      ensures effect == CopyFile(sourceFilePath, destinationFilePath)
    {
      effect := CopyFile(sourceFilePath, destinationFilePath);
    }
  }
}
