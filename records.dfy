/**
 The records the screens pass around: the browser's `File` handle (its
 contents are never read), the credits record produced by the mock analyser,
 and one entry of the in-memory analysis log.
 */
module Records {

  import opened Wrappers

  /** A browser `File`, reduced to what the screens look at. */
  datatype File = File(name: string, mimeType: string, size: nat)

  /**
   The credits record. Every scalar field may be absent, and so may the two
   lists; the screens treat an absent field and an empty string alike.
   */
  datatype Metadata = Metadata(
    producer: Option<string>,
    composer: Option<string>,
    lyricist: Option<string>,
    songwriter: Option<string>,
    masteringEngineer: Option<string>,
    mixingEngineer: Option<string>,
    recordingEngineer: Option<string>,
    vocalEngineer: Option<string>,
    vocalists: Option<seq<string>>,
    instrumentalists: Option<seq<string>>,
    publisher: Option<string>,
    genre: Option<string>,
    releaseDate: Option<string>)

  /** One analysed file in the session log. `metadata` is untyped in the
      source, so a record without one (`None`) is representable. */
  datatype UploadedFile = UploadedFile(
    id: string,
    file: File,
    metadata: Option<Metadata>,
    uploadDate: string)

  /** JavaScript truthiness of an optional string: present and non-empty. */
  predicate Truthy(v: Option<string>) {
    v.Some? && v.value != ""
  }
}
