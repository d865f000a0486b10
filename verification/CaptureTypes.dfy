/** Names and limits shared by the writer and the reader of captured output. */
module CaptureTypes {

  datatype CaptureStream = Stdout | Stderr

  const CAPTURE_LIMIT := 5_242_880

  /** Device and inode of an open file. */
  datatype Identity = Identity(dev: nat, ino: nat)

  function StreamName(s: CaptureStream): string {
    match s case Stdout => "stdout" case Stderr => "stderr"
  }
}
