/** The sync service for one account: site resolution with rename
    detection, then the bio, profile-image, gallery and collection checks.
    The remote API, the directory listings, the bio file and the clock are
    inputs; the effects on the file system are returned as lists of
    operations. */
module Service {
  import opened Models
  import opened Helpers
  import opened Bio
  import opened Selection
  import opened Sync

  /** The remote API as the service sees it: site lookup by id (a site with
      an empty name when there is none), site lookup by username (a list,
      empty when there is none), the finite page lists of a site's gallery
      and of a collection, and the bytes served at a URL. */
  datatype Remote = Remote(
    siteById: int -> Site,
    sitesByUsername: string -> seq<Site>,
    galleryPages: int -> seq<seq<Media>>,
    collectionPages: string -> seq<seq<Media>>,
    download: string -> Bytes)

  /** The outcome of a bio or profile-image check: skipped because there is
      no live site, fatal, or done with these effects. */
  datatype Outcome = NoSite | Panicked | Done(ops: seq<FsOp>)

  /** The outcome of a gallery or collection pass; a finished pass records
      the page numbers it requested, the tasks it dispatched, what the
      workers handed to the writer, the writer's effects, and the index
      once every worker has registered its key. */
  datatype SyncOutcome =
    | SyncNoSite
    | SyncPanicked
    | Synced(requested: seq<int>, tasks: seq<Task>, results: seq<MediaData>, ops: seq<FsOp>, index: set<string>)

  /** What site resolution finds: the site to use, the account afterwards,
      and whether the account was renamed. */
  datatype Resolution = Resolution(site: Site, account: AccountState, renamed: bool)

  /** Whether the remote has an answer for the account: a site with a
      non-empty name under a known id, or at least one site under the
      username when the id is unknown. */
  predicate Answered(before: AccountState, remote: Remote)
  {
    if before.siteID != -1 then remote.siteById(before.siteID).name != ""
    else |remote.sitesByUsername(before.username)| > 0
  }

  /** Site resolution. With a known site id the site is looked up by id; a
      non-empty name makes it the site, copies its user id, and renames the
      account when the name changed. With an unknown id (-1) the site is
      looked up by username; the first match becomes the site and its ids are
      copied, without any rename. An empty answer changes nothing. */
  function Resolve(before: AccountState, current: Site, remote: Remote): (r: Resolution)
    ensures before.siteID != -1 ==> r.account.siteID == before.siteID
    ensures Answered(before, remote) && before.siteID != -1 ==>
      r.site == remote.siteById(before.siteID)
    ensures Answered(before, remote) && before.siteID == -1 ==>
      r.site == remote.sitesByUsername(before.username)[0] && r.account.siteID == r.site.siteID
    ensures Answered(before, remote) ==> r.account.userID == r.site.userID
    ensures r.account.username == (if r.renamed then r.site.name else before.username)
  {
    if before.siteID != -1 then
      var s := remote.siteById(before.siteID);
      if s.name != "" then
        Resolution(s, AccountState(s.userID, before.siteID, s.name), before.username != s.name)
      else
        Resolution(current, before, false)
    else
      var sites := remote.sitesByUsername(before.username);
      if |sites| > 0 then
        Resolution(sites[0], AccountState(sites[0].userID, sites[0].siteID, before.username), false)
      else
        Resolution(current, before, false)
  }

  /** A rename happens only for a known id, and only to the resolved site's
      non-empty name when it differs from the stored one. */
  lemma RenameOnlyWithKnownId(before: AccountState, current: Site, remote: Remote)
    ensures var r := Resolve(before, current, remote);
      r.renamed <==>
        before.siteID != -1 && remote.siteById(before.siteID).name != ""
        && remote.siteById(before.siteID).name != before.username
    ensures var r := Resolve(before, current, remote);
      r.renamed ==> r.account.username == r.site.name != "" && r.account.username != before.username
  {
  }

  /** An empty answer leaves the site and the account as they were. */
  lemma EmptyAnswerChangesNothing(before: AccountState, current: Site, remote: Remote)
    requires before.siteID != -1 ==> remote.siteById(before.siteID).name == ""
    requires before.siteID == -1 ==> remote.sitesByUsername(before.username) == []
    ensures Resolve(before, current, remote) == Resolution(current, before, false)
  {
  }

  /** Resolution by id is idempotent: resolving the resolved account again
      against the same remote renames nothing and changes nothing. */
  lemma ResolveByIdIdempotent(before: AccountState, current: Site, remote: Remote)
    requires before.siteID != -1
    ensures var r := Resolve(before, current, remote);
      Resolve(r.account, r.site, remote) == Resolution(r.site, r.account, false)
  {
  }

  /** A name change found by username lookup is not applied at once: the
      account keeps its stored name, records the site id, and the next pass
      (now by id) performs the rename when the site by that id carries the
      new name. */
  lemma RenameDeferredAfterUsernameLookup(before: AccountState, current: Site, remote: Remote)
    requires before.siteID == -1
    requires |remote.sitesByUsername(before.username)| > 0
    requires var s := remote.sitesByUsername(before.username)[0];
      s.siteID != -1 && remote.siteById(s.siteID) == s && s.name != "" && s.name != before.username
    ensures var r1 := Resolve(before, current, remote);
      !r1.renamed && r1.account.username == before.username
    ensures var r1 := Resolve(before, current, remote);
      var r2 := Resolve(r1.account, r1.site, remote);
      r2.renamed && r2.account.username == r1.site.name
  {
  }

  /** The directory of an account under its target's directory. */
  function AccountPath(targetDir: string, username: string): string
  {
    targetDir + "/" + username
  }

  /** The path of the bio history file. */
  function BioRecordPath(profileDir: string): string
  {
    profileDir + "/.BioRecord.json"
  }

  /** The entry name under which the profile image is stored. */
  function ProfileImageFile(imageID: string): string
  {
    imageID + ".jpg"
  }

  /** The profile-image check tests the bare image id while the image is
      stored as `<id>.jpg`, so storing it never satisfies the check: a missing
      id is still missing in the next listing, and the image is fetched on
      every pass. */
  lemma ProfileImageRefetchedEveryPass(names: seq<string>, imageID: string)
    requires imageID !in names
    ensures imageID !in names + [ProfileImageFile(imageID)]
    ensures !IsInEntries(imageID, NameSet(names + [ProfileImageFile(imageID)]))
  {
    assert |ProfileImageFile(imageID)| == |imageID| + 4;
  }

  /** Whether a gallery or collection pass behaved as the listing driver,
      the workers and the writer promise. */
  predicate SyncMeets(out: SyncOutcome, live: bool, dir: string, listing: DirListing,
                      pages: seq<seq<Media>>, download: string -> Bytes, target: Target, format: Formatter)
  {
    match out
    case SyncNoSite => !live
    case SyncPanicked => live && listing.Unreadable?
    case Synced(requested, tasks, results, ops, index) =>
      live && listing.Readable?
      && var snapshot := NameSet(listing.names);
      && |requested| == FirstEmpty(pages) + 1
      && (forall j :: 0 <= j < |requested| ==> requested[j] == j + 1)
      && tasks == Dispatch(Listed(pages), snapshot, target, format)
      && |results| == |tasks|
      && (forall i :: 0 <= i < |tasks| ==> results[i] == Fetched(tasks[i], download))
      && ops == Persist(dir, results)
      && index == snapshot + KeysOf(tasks)
  }

  /** A finished pass stores the i-th dispatched item, downloaded from its
      URL, as `<dir>/<key>/<id>.jpg|.mp4` beside `<dir>/<key>/Info.json`, and
      an item whose key was already on disk is never stored. */
  lemma SyncedLayout(out: SyncOutcome, live: bool, dir: string, listing: DirListing,
                     pages: seq<seq<Media>>, download: string -> Bytes, target: Target, format: Formatter, i: int)
    requires SyncMeets(out, live, dir, listing, pages, download, target, format)
    requires out.Synced? && 0 <= i < |out.tasks|
    ensures var t := out.tasks[i];
      t.key !in NameSet(listing.names)
      && out.ops[3 * i..3 * i + 3]
         == [EnsureDir(dir + "/" + t.key),
             WriteBytes(dir + "/" + t.key + "/" + t.media.id + Extension(t.media), download(MediaURL(t.media))),
             WriteInfo(dir + "/" + t.key + "/" + "Info.json", t.media)]
  {
    PersistAt(dir, out.results, i);
    assert out.tasks[i] in out.tasks;
  }

  class Service {
    var username: string
    var site: Site
    var targetDir: string
    var accountDir: string
    var profileDir: string
    var galleryDir: string
    var collectionDir: string

    /** Every derived path sits under `targetDir/username`. */
    predicate PathsAgree()
      reads this
    {
      && accountDir == AccountPath(targetDir, username)
      && profileDir == accountDir + "/Profile"
      && galleryDir == accountDir + "/Gallery"
      && collectionDir == accountDir + "/Collection"
    }

    /** The service as first built for an account, before resolution. */
    constructor (account: Account, targetPath: string)
      ensures username == account.username && site == EmptySite && targetDir == targetPath
      ensures accountDir == targetPath + "/" + account.username
      ensures profileDir == targetPath + "/" + account.username + "/Profile"
      ensures galleryDir == targetPath + "/" + account.username + "/Gallery"
      ensures collectionDir == targetPath + "/" + account.username + "/Collection"
      ensures PathsAgree()
    {
      username := account.username;
      site := EmptySite;
      targetDir := targetPath;
      accountDir := targetPath + "/" + account.username;
      profileDir := targetPath + "/" + account.username + "/Profile";
      galleryDir := targetPath + "/" + account.username + "/Gallery";
      collectionDir := targetPath + "/" + account.username + "/Collection";
    }

    /** Resolves the site and records what it finds on the account; on a
        rename, moves the account directory and recomputes every path under
        the same target directory. */
    method SetSite(account: Account, remote: Remote) returns (ops: seq<FsOp>)
      requires PathsAgree() && username == account.username
      modifies this, account
      ensures PathsAgree() && username == account.username && targetDir == old(targetDir)
      ensures var r := Resolve(old(account.State()), old(site), remote);
        && site == r.site
        && account.State() == r.account
        && ops == (if r.renamed then [Rename(old(accountDir), AccountPath(targetDir, r.account.username))] else [])
      ensures !Resolve(old(account.State()), old(site), remote).renamed ==>
        accountDir == old(accountDir) && profileDir == old(profileDir)
        && galleryDir == old(galleryDir) && collectionDir == old(collectionDir)
    {
      ops := [];
      if account.siteID != -1 {
        var fetched := remote.siteById(account.siteID);
        if fetched.name != "" {
          site := fetched;
          account.userID := site.userID;
          if account.username != site.name {
            account.username := site.name;
            username := account.username;
            ops := [Rename(accountDir, targetDir + "/" + username)];
            accountDir := targetDir + "/" + username;
            profileDir := accountDir + "/Profile";
            galleryDir := accountDir + "/Gallery";
            collectionDir := accountDir + "/Collection";
          }
        }
      } else {
        var sites := remote.sitesByUsername(account.username);
        if |sites| > 0 {
          site := sites[0];
          account.siteID := site.siteID;
          account.userID := site.userID;
        }
      }
    }

    /** Records a change of the bio: a missing history file is created with
        one record; a stored history is rewritten only when a record was
        appended; an unreadable file is fatal. */
    method CheckBio(file: BioFile, now: Int64) returns (out: Outcome)
      ensures site.name == "" ==> out == NoSite
      ensures site.name != "" && file.Corrupt? ==> out == Panicked
      ensures site.name != "" && !file.Corrupt? ==>
        var before := if file.Missing? then None else Some(file.records);
        var after := BioStep(before, site.description, now);
        out == Done(if after == before then [] else [WriteBio(BioRecordPath(profileDir), after.value)])
    {
      if site.name == "" {
        return NoSite;
      }
      var path := profileDir + "/.BioRecord.json";
      if file.Missing? {
        return Done([WriteBio(path, [BioRecord(site.description, now)])]);
      }
      if file.Corrupt? {
        return Panicked;
      }
      var records := file.records;
      if |records| > 0 && site.description != records[|records| - 1].description {
        records := records + [BioRecord(site.description, now)];
        return Done([WriteBio(path, records)]);
      }
      return Done([]);
    }

    /** Downloads the profile image when its id is not among the names in
        the profile directory, and stores it as `<id>.jpg`. */
    method CheckProfileImage(listing: DirListing, remote: Remote) returns (out: Outcome)
      ensures site.name == "" ==> out == NoSite
      ensures site.name != "" && listing.Unreadable? ==> out == Panicked
      ensures site.name != "" && listing.Readable? ==>
        out == Done(if site.profileImageID in listing.names then []
                    else [WriteBytes(profileDir + "/" + ProfileImageFile(site.profileImageID),
                                     remote.download("https://" + site.responsiveURL))])
    {
      if site.name == "" {
        return NoSite;
      }
      var entries := EntriesForDir(listing);
      if entries.None? {
        return Panicked;
      }
      if !IsInEntries(site.profileImageID, entries.value) {
        var data := remote.download("https://" + site.responsiveURL);
        assert profileDir + "/" + site.profileImageID + ".jpg" == profileDir + "/" + ProfileImageFile(site.profileImageID);
        return Done([WriteBytes(profileDir + "/" + site.profileImageID + ".jpg", data)]);
      }
      return Done([]);
    }

    /** One gallery or collection pass into `dir`: snapshot, listing,
        workers, writer. */
    method SyncMedia(target: Target, dir: string, listing: DirListing, pages: seq<seq<Media>>,
                     download: string -> Bytes, format: Formatter)
      returns (out: SyncOutcome)
      ensures SyncMeets(out, site.name != "", dir, listing, pages, download, target, format)
    {
      if site.name == "" {
        return SyncNoSite;
      }
      var entries := EntriesForDir(listing);
      if entries.None? {
        return SyncPanicked;
      }
      var snapshot := entries.value;
      assert snapshot == NameSet(listing.names);
      var requested, tasks := ListPages(pages, snapshot, target, format);
      var results, index := RunWorkers(tasks, snapshot, download);
      var ops := Consume(dir, results);
      return Synced(requested, tasks, results, ops, index);
    }

    /** Stores every gallery item whose upload-date key is not yet in the
        gallery directory. */
    method CheckGalleryMedia(listing: DirListing, remote: Remote, format: Formatter) returns (out: SyncOutcome)
      ensures SyncMeets(out, site.name != "", galleryDir, listing, remote.galleryPages(site.siteID),
                        remote.download, Gallery, format)
    {
      out := SyncMedia(Gallery, galleryDir, listing, remote.galleryPages(site.siteID), remote.download, format);
    }

    /** Stores every collected item whose key, derived from the sum of its
        upload and collected dates, is not yet in the collection directory. */
    method CheckCollectionMedia(listing: DirListing, remote: Remote, format: Formatter) returns (out: SyncOutcome)
      ensures SyncMeets(out, site.name != "", collectionDir, listing, remote.collectionPages(site.siteCollectionID),
                        remote.download, Collection, format)
    {
      out := SyncMedia(Collection, collectionDir, listing, remote.collectionPages(site.siteCollectionID),
                       remote.download, format);
    }
  }

  /** Builds the service for an account: derives the paths, resolves the
      site, and when the site is live makes sure the profile, gallery and
      collection directories exist. */
  method New(account: Account, targetPath: string, remote: Remote) returns (s: Service, ops: seq<FsOp>)
    modifies account
    ensures fresh(s) && s.PathsAgree()
    ensures s.targetDir == targetPath && s.username == account.username
    ensures var r := Resolve(old(account.State()), EmptySite, remote);
      && s.site == r.site
      && account.State() == r.account
      && s.accountDir == targetPath + "/" + r.account.username
      && ops == (if r.renamed then [Rename(targetPath + "/" + old(account.username), s.accountDir)] else [])
              + (if r.site.name != "" then [EnsureDir(s.profileDir), EnsureDir(s.galleryDir), EnsureDir(s.collectionDir)] else [])
  {
    s := new Service(account, targetPath);
    ops := s.SetSite(account, remote);
    if s.site.name != "" {
      ops := ops + [EnsureDir(s.profileDir), EnsureDir(s.galleryDir), EnsureDir(s.collectionDir)];
    }
  }
}
