/** Records of the VSCO sync service: the remote site and media records, the
    tracked account, the bio history entry, a downloaded item, and the
    values that stand for the file system and the remote API. */
module Models {

  datatype Option<+T> = None | Some(value: T)

  /** Go's int64. */
  const MinInt64: int := -0x8000_0000_0000_0000
  const MaxInt64: int := 0x7fff_ffff_ffff_ffff
  type Int64 = x: int | MinInt64 <= x <= MaxInt64

  type Bytes = seq<bv8>

  /** The remote profile. The zero value (every string empty) is the
      "no live site" sentinel; only `name` is ever tested. */
  datatype Site = Site(
    siteID: int,
    siteCollectionID: string,
    responsiveURL: string,
    name: string,
    description: string,
    userID: int,
    profileImageURL: string,
    profileImageID: string,
    recentlyPublishedURL: string)

  const EmptySite: Site := Site(0, "", "", "", "", 0, "", "", "")

  datatype ImageMeta = ImageMeta(make: string, model: string, orientation: int)

  datatype Tag = Tag(text: string, slug: string)

  /** One remote media item; timestamps are milliseconds since the epoch.
      The location coordinates (floats) are not modelled. */
  datatype Media = Media(
    id: string,
    siteID: int,
    permaSubdomain: string,
    description: string,
    captureDate: Int64,
    uploadDate: Int64,
    lastUpdated: Int64,
    hasLocation: bool,
    isVideo: bool,
    videoURL: string,
    responsiveURL: string,
    imageMeta: ImageMeta,
    tags: seq<Tag>,
    collectedDate: Int64,
    favorited: bool,
    blacklisted: bool)

  /** One entry of the bio history: the text and when it was seen
      (seconds since the epoch). */
  datatype BioRecord = BioRecord(description: string, captureDate: Int64)

  /** A downloaded item on its way to the writer: the payload, the dedup
      key that names its directory, and the item's metadata. */
  datatype MediaData = MediaData(bytes: Bytes, filename: string, media: Media)

  /** The value of a tracked account at one moment. */
  datatype AccountState = AccountState(userID: int, siteID: int, username: string)

  /** A tracked account, owned by the registry and updated in place by
      site resolution; -1 stands for an unknown id. */
  class Account {
    var userID: int
    var siteID: int
    var username: string

    function State(): AccountState
      reads this
    {
      AccountState(userID, siteID, username)
    }

    constructor (userID: int, siteID: int, username: string)
      ensures this.userID == userID && this.siteID == siteID && this.username == username
    {
      this.userID := userID;
      this.siteID := siteID;
      this.username := username;
    }
  }

  /** What reading a directory gives: the names of its entries, or an
      error (the service panics on it). */
  datatype DirListing = Unreadable | Readable(names: seq<string>)

  /** The bio history file: absent, unreadable or undecodable, or a
      decoded list of records. */
  datatype BioFile = Missing | Corrupt | Stored(records: seq<BioRecord>)

  /** The effects the service has on the file system, in the order it
      performs them. `EnsureDir` creates a directory unless it exists. */
  datatype FsOp =
    | EnsureDir(path: string)
    | Rename(from: string, to: string)
    | WriteBytes(path: string, bytes: Bytes)
    | WriteInfo(path: string, media: Media)
    | WriteBio(path: string, records: seq<BioRecord>)
}
