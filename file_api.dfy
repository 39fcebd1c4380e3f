/**
 * The browser's file objects as the file-picker component sees them, and the
 * check `readFile` makes on the name of the FileReader method it is asked to
 * call (addon/components/file-picker.js:154-159).
 */
module FileApi {
  import opened Wrappers

  /** An opaque handle on a file chosen by the user. */
  datatype File = File(name: string, mimeType: string, size: nat)

  /** What a successful read resolves with: the file's metadata and its encoded contents. */
  datatype ReadResult = ReadResult(name: string, mimeType: string, data: string, size: nat)

  /**
   * A read that `readFile` started: the file it was given (`None` when the caller
   * passed `files[0]` of an empty list) and the reader method it calls.
   */
  datatype ReadRequest = ReadRequest(file: Option<File>, readAs: string)

  /** Whether `readFile` starts a read or fails its assertion. */
  datatype ReadStart = Started | NotImplemented(message: string)

  /** The four FileReader methods that read a file, as the doc comment of `readFile` lists them. */
  const ReadMethods: set<string> :=
    {"readAsArrayBuffer", "readAsBinaryString", "readAsDataURL", "readAsText"}

  /** The methods a FileReader declares itself: the four readers and `abort`. */
  const FileReaderMethods: set<string> := ReadMethods + {"abort"}

  /** Methods every FileReader inherits because it is an event target. */
  const EventTargetMethods: set<string> := {"addEventListener", "removeEventListener", "dispatchEvent"}

  /**
   * The guard exactly as written, `reader[readAs] && readAs !== 'abort'`: the
   * browser decides which member names are truthy on a reader, so that set is a
   * parameter here. It is a feature test that rejects names the reader lacks,
   * and it never rejects a read method the reader implements.
   */
  function AcceptedAsWritten(truthyMembers: set<string>, readAs: string): (ok: bool)
    ensures ok ==> readAs in truthyMembers && readAs != "abort"
    ensures readAs in ReadMethods && readAs in truthyMembers ==> ok
  {
    readAs in truthyMembers && readAs != "abort"
  }

  /** The text of the assertion that fails for an unsupported method name. */
  function NotImplementedMessage(readAs: string): (m: string)
    ensures |m| == |readAs| + 32
    ensures m[15..15 + |readAs|] == readAs
    ensures m[..15] == "readAs method \"" && m[15 + |readAs|..] == "\" not implemented"
  {
    "readAs method \"" + readAs + "\" not implemented"
  }

  /**
   * The guard as intended: a read starts exactly for one of the four reader
   * methods that this browser's reader implements; any other name, `abort`
   * and the inherited event-target methods included, fails with the assertion
   * message.
   */
  function CheckReadAs(truthyMembers: set<string>, readAs: string): (r: ReadStart)
    ensures r.Started? <==> readAs in ReadMethods && readAs in truthyMembers
    ensures r.Started? ==> readAs in FileReaderMethods && readAs != "abort"
    ensures r.NotImplemented? ==> r.message == NotImplementedMessage(readAs)
  {
    if readAs in ReadMethods && readAs in truthyMembers then Started
    else NotImplemented(NotImplementedMessage(readAs))
  }

  /**
   * As written, the guard lets through a method that is not a reader: every
   * FileReader has a truthy `addEventListener`, and it is not `abort`.
   */
  lemma AsWrittenAdmitsListenerMethod(truthyMembers: set<string>)
    requires EventTargetMethods <= truthyMembers
    ensures AcceptedAsWritten(truthyMembers, "addEventListener")
    ensures CheckReadAs(truthyMembers, "addEventListener").NotImplemented?
  {
  }

  /**
   * The intended guard only ever narrows the written one, on any reader: it
   * keeps the feature test and agrees with it on every read method. The two
   * coincide on a reader whose only truthy members are its own methods.
   */
  lemma CheckReadAsRefinesAsWritten(truthyMembers: set<string>, readAs: string)
    ensures CheckReadAs(truthyMembers, readAs).Started? ==> AcceptedAsWritten(truthyMembers, readAs)
    ensures readAs in ReadMethods ==>
      (CheckReadAs(truthyMembers, readAs).Started? <==> AcceptedAsWritten(truthyMembers, readAs))
    ensures truthyMembers <= FileReaderMethods ==>
      (CheckReadAs(truthyMembers, readAs).Started? <==> AcceptedAsWritten(truthyMembers, readAs))
  {
  }
}
