/**
 * The notification cache directory: one file per notification, named
 * `<id>.json` (`save_notification`), and a retention sweep that deletes
 * every `*.json` file that is too old or cannot be read back
 * (`cleanup_old_notifications`). The directory is a map from file name to
 * what the file holds.
 */
module Store {
  import opened Text
  import opened Notifications

  /** What reading a file back gives. */
  datatype FileContent =
    | Undecodable               // json.load raised JSONDecodeError
    | Undated                   // decodes, but "timestamp" is missing or not ISO 8601
    | Saved(n: Notification)    // a notification record with a readable timestamp

  /** The sweep looks only at names matching `*.json`. */
  predicate Listed(name: string) {
    EndsWith(name, ".json")
  }

  /** A listed file is deleted when unreadable, undated, or strictly older than the limit. */
  predicate Expired(content: FileContent, now: int, maxAgeSeconds: int) {
    match content
    case Undecodable => true
    case Undated => true
    case Saved(n) => now - n.timestamp > maxAgeSeconds
  }

  /** The limit of `max_age_hours`, in seconds. */
  function MaxAgeSeconds(maxAgeHours: nat): int {
    maxAgeHours * 3600
  }

  /** The directory after a sweep at time `now`. */
  function Swept(files: map<string, FileContent>, now: int, maxAgeSeconds: int): (r: map<string, FileContent>)
    ensures forall name :: name in r <==> name in files && !(Listed(name) && Expired(files[name], now, maxAgeSeconds))
    ensures forall name :: name in r ==> r[name] == files[name]
  {
    map name | name in files && !(Listed(name) && Expired(files[name], now, maxAgeSeconds)) :: files[name]
  }

  /** Sweeping twice at the same time gives what sweeping once gave. */
  lemma SweepIdempotent(files: map<string, FileContent>, now: int, maxAgeSeconds: int)
    ensures Swept(Swept(files, now, maxAgeSeconds), now, maxAgeSeconds) == Swept(files, now, maxAgeSeconds)
  {
    var once := Swept(files, now, maxAgeSeconds);
    var twice := Swept(once, now, maxAgeSeconds);
    assert twice.Keys == once.Keys;
  }

  /** With the default 24 hours: a record exactly 24 h old is kept, 23 h kept, 25 h deleted. */
  lemma SweepBoundary(name: string, n: Notification, now: int)
    requires Listed(name)
    ensures now - n.timestamp == 24 * 3600 ==> name in Swept(map[name := Saved(n)], now, MaxAgeSeconds(24))
    ensures now - n.timestamp == 23 * 3600 ==> name in Swept(map[name := Saved(n)], now, MaxAgeSeconds(24))
    ensures now - n.timestamp == 25 * 3600 ==> name !in Swept(map[name := Saved(n)], now, MaxAgeSeconds(24))
  {
  }

  /** A file the sweep does not list (the debug log, say) is never touched. */
  lemma SweepSparesUnlisted(files: map<string, FileContent>, now: int, maxAgeSeconds: int, name: string)
    requires name in files && !Listed(name)
    ensures name in Swept(files, now, maxAgeSeconds) && Swept(files, now, maxAgeSeconds)[name] == files[name]
  {
  }

  /** The cache directory. */
  class NotificationStore {
    /** Whether the directory exists. */
    var present: bool
    /** The files it holds, by name. */
    var files: map<string, FileContent>

    ghost predicate Valid()
      reads this
    {
      !present ==> files == map[]
    }

    /** A store whose directory has not been created yet. */
    constructor ()
      ensures Valid() && !present && files == map[]
    {
      present := false;
      files := map[];
    }

    /** `save_notification`: create the directory if needed and write `<id>.json`; nothing else changes. */
    method Save(n: Notification) returns (name: string)
      requires Valid()
      modifies this
      ensures Valid() && present
      ensures name == n.id + ".json"
      ensures files == old(files)[name := Saved(n)]
    {
      present := true;
      name := n.id + ".json";
      files := files[name := Saved(n)];
    }

    /**
     * `cleanup_old_notifications`: nothing when the directory does not
     * exist; otherwise each `*.json` file, in whatever order the directory
     * lists them, is read and unlinked if it is expired.
     */
    method Sweep(now: int, maxAgeHours: nat)
      requires Valid()
      modifies this
      ensures Valid() && present == old(present)
      ensures files == Swept(old(files), now, MaxAgeSeconds(maxAgeHours))
    {
      if !present {
        assert Swept(files, now, MaxAgeSeconds(maxAgeHours)) == map[];
        return;
      }
      var limit := MaxAgeSeconds(maxAgeHours);
      ghost var original := files;
      var pending := files.Keys;
      while pending != {}
        invariant present && pending <= original.Keys
        invariant forall name :: name in files <==>
          name in original && (name in pending || !(Listed(name) && Expired(original[name], now, limit)))
        invariant forall name :: name in files ==> files[name] == original[name]
        decreases pending
      {
        var name :| name in pending;
        pending := pending - {name};
        if EndsWith(name, ".json") {
          match files[name]
          case Undecodable =>
            files := files - {name};
          case Undated =>
            files := files - {name};
          case Saved(n) =>
            if now - n.timestamp > limit {
              files := files - {name};
            }
        }
      }
      assert files.Keys == Swept(original, now, limit).Keys;
    }
  }
}
