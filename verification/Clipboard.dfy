/** The clipboard thread: apply requests, polls, and the three last-seen trackers.
    The operating system's clipboard has three optional slots; a successful write leaves only its
    own kind, and reading returns what was written. Files travel as a `text/uri-list` body. */
module Clipboard {
  import opened Wrappers
  import opened UriList

  datatype ImageBytes = ImageBytes(width: U32, height: U32, rgba: seq<Byte>)

  datatype ClipChange = Text(text: string) | Image(image: ImageBytes) | Files(paths: seq<Path>)

  datatype OsClipboard = OsClipboard(uris: Option<seq<Byte>>, image: Option<ImageBytes>, text: Option<string>)

  datatype Trackers = Trackers(text: Option<string>, image: Option<ImageBytes>, files: Option<seq<Path>>)

  /** Which reads fail for a reason other than an absent slot. */
  datatype Faults = Faults(files: bool, image: bool, text: bool)

  const NO_FAULTS := Faults(false, false, false)

  /** The clipboard after a successful write of a change. */
  function Holding(change: ClipChange): OsClipboard {
    match change
    case Text(text) => OsClipboard(None, None, Some(text))
    case Image(image) => OsClipboard(None, Some(image), None)
    case Files(paths) => OsClipboard(Some(RenderUriList(paths)), None, None)
  }

  function Track(t: Trackers, change: ClipChange): Trackers {
    match change
    case Text(text) => t.(text := Some(text))
    case Image(image) => t.(image := Some(image))
    case Files(paths) => t.(files := Some(paths))
  }

  /** `apply_change`; `ok` is the outcome of the write. Writing no files is a successful no-op. */
  function Apply(os: OsClipboard, t: Trackers, change: ClipChange, ok: bool): (OsClipboard, Trackers) {
    if change == Files([]) then (os, Track(t, change))
    else if ok then (Holding(change), Track(t, change))
    else (os, t)
  }

  /** The file list on the clipboard, if it names any file. */
  function FilesOn(os: OsClipboard): Option<seq<Path>> {
    match os.uris
    case None => None
    case Some(body) =>
      var paths := ParseUriList(body);
      if |paths| == 0 then None else Some(paths)
  }

  function Poll(os: OsClipboard, t: Trackers, faults: Faults): (Trackers, Option<ClipChange>) {
    var files := FilesOn(os);
    if !faults.files && files.Some? && t.files != files then
      (t.(files := files), Some(Files(files.value)))
    else if !faults.image && os.image.Some? && t.image != os.image then
      (t.(image := os.image), Some(Image(os.image.value)))
    else if faults.text then (t, None)
    else if os.text.None? then (t.(text := None), None)
    else if t.text != os.text then (t.(text := os.text), Some(Text(os.text.value)))
    else (t, None)
  }

  class ClipboardThread {
    var os: OsClipboard
    var lastText: Option<string>
    var lastImage: Option<ImageBytes>
    var lastFiles: Option<seq<Path>>

    ghost function Seen(): Trackers
      reads this
    {
      Trackers(lastText, lastImage, lastFiles)
    }

    constructor (os: OsClipboard)
      ensures this.os == os && Seen() == Trackers(None, None, None)
    {
      this.os := os;
      lastText, lastImage, lastFiles := None, None, None;
    }

    method ApplyChange(change: ClipChange, ok: bool)
      modifies this
      ensures (os, Seen()) == Apply(old(os), old(Seen()), change, ok)
    {
      match change
      case Text(text) =>
        if ok {
          os := OsClipboard(None, None, Some(text));
          lastText := Some(text);
        }
      case Image(image) =>
        if ok {
          os := OsClipboard(None, Some(image), None);
          lastImage := Some(image);
        }
      case Files(paths) =>
        if |paths| == 0 {
          lastFiles := Some(paths);
        } else if ok {
          var body := RenderUriListLoop(paths);
          os := OsClipboard(Some(body), None, None);
          lastFiles := Some(paths);
        }
    }

    method PollClipboard(faults: Faults) returns (change: Option<ClipChange>)
      modifies this`lastText, this`lastImage, this`lastFiles
      ensures (Seen(), change) == Poll(os, old(Seen()), faults)
    {
      if !faults.files && os.uris.Some? {
        var paths := ParseUriList(os.uris.value);
        if |paths| > 0 && lastFiles != Some(paths) {
          lastFiles := Some(paths);
          return Some(Files(paths));
        }
      }
      if !faults.image && os.image.Some? && lastImage != os.image {
        lastImage := os.image;
        return Some(Image(os.image.value));
      }
      if !faults.text {
        if os.text.Some? {
          if lastText != os.text {
            lastText := os.text;
            return Some(Text(os.text.value));
          }
        } else {
          lastText := None;
        }
      }
      change := None;
    }
  }

  /** What an apply leaves alone. A failed write changes nothing; a write that succeeds fills its own
      slot alone with something that reads as the change, and moves its own tracker alone. */
  lemma ApplyLeaves(os: OsClipboard, t: Trackers, change: ClipChange, ok: bool)
    ensures var (os', t') := Apply(os, t, change, ok);
            && (!ok && change != Files([]) ==> os' == os && t' == t)
            && (change == Files([]) ==> os' == os)
            && (!change.Text? ==> t'.text == t.text)
            && (!change.Image? ==> t'.image == t.image)
            && (!change.Files? ==> t'.files == t.files)
            && (ok && change != Files([]) ==>
                  && os'.text == (if change.Text? then Some(change.text) else None)
                  && os'.image == (if change.Image? then Some(change.image) else None)
                  && (os'.uris.Some? <==> change.Files?)
                  && (Faithful(change) ==> Poll(os', t', NO_FAULTS).1 == None
                                           && forall before :: Pending(os', before) <= [change]))
  {
    hide FilesOn, RenderUriList, Faithful, Pending;
    if ok && change != Files([]) && Faithful(change) {
      var (os', t') := Apply(os, t, change, ok);
      AppliedIsSilentIff(os, t, change);
      PollConsumes(os', t', NO_FAULTS);
      forall before ensures Pending(os', before) <= [change] {
        OnlyThisPending(change, before);
      }
    }
  }

  lemma OnlyThisPending(change: ClipChange, before: Trackers)
    requires Faithful(change)
    ensures Pending(Holding(change), before) <= [change]
  {
    hide RenderUriList, ParseUriList, RoundTrips;
    if change.Files? {
      UriListRoundTrip(change.paths);
      assert FilesOn(Holding(change)) == Some(change.paths);
    }
  }

  /** A poll that emits moves exactly the tracker that applying the change here would have moved; a
      silent one moves none, except that it forgets a text that is gone. */
  lemma PollTracks(os: OsClipboard, t: Trackers, faults: Faults)
    ensures var (t', change) := Poll(os, t, faults);
            && (change.Some? ==> t' == Apply(os, t, change.value, true).1)
            && (change.None? ==>
                  && t'.image == t.image && t'.files == t.files
                  && t'.text == (if faults.text || os.text.Some? then t.text else None))
  {
    hide FilesOn;
  }

  // The potential: slots that are present and differ from their tracker.

  function FilesPending(os: OsClipboard, t: Trackers): seq<ClipChange> {
    if FilesOn(os).Some? && t.files != FilesOn(os) then [Files(FilesOn(os).value)] else []
  }

  function ImagePending(os: OsClipboard, t: Trackers): seq<ClipChange> {
    if os.image.Some? && t.image != os.image then [Image(os.image.value)] else []
  }

  function TextPending(os: OsClipboard, t: Trackers): seq<ClipChange> {
    if os.text.Some? && t.text != os.text then [Text(os.text.value)] else []
  }

  function Pending(os: OsClipboard, t: Trackers): (changes: seq<ClipChange>)
    ensures |changes| <= Filled(os)
  {
    FilesPending(os, t) + ImagePending(os, t) + TextPending(os, t)
  }

  function Filled(os: OsClipboard): (n: nat)
    ensures n <= 3
  {
    (if os.uris.Some? then 1 else 0) + (if os.image.Some? then 1 else 0) + (if os.text.Some? then 1 else 0)
  }

  /** A poll that emits takes one change off what is pending; a poll that does not leaves it. With
      good reads it emits exactly the first pending change: files, then image, then text. */
  lemma PollConsumes(os: OsClipboard, t: Trackers, faults: Faults)
    ensures var (t', change) := Poll(os, t, faults);
            && |Pending(os, t')| == |Pending(os, t)| - (if change.Some? then 1 else 0)
            && (change.Some? ==> change.value in Pending(os, t))
            && (change.None? ==> Pending(os, t') == Pending(os, t))
            && (faults == NO_FAULTS ==>
                  if |Pending(os, t)| == 0 then change.None?
                  else change == Some(Pending(os, t)[0]) && Pending(os, t') == Pending(os, t)[1..])
  {
    hide FilesOn;
  }

  /** A silent poll has caught up with the clipboard: every present slot equals its tracker. An absent
      text is forgotten, so the same text copied again is news; an absent image or file list is not. */
  lemma SilentPoll(os: OsClipboard, t: Trackers)
    requires Poll(os, t, NO_FAULTS).1.None?
    ensures Poll(os, t, NO_FAULTS).0 == Trackers(os.text,
                                                 if os.image.Some? then os.image else t.image,
                                                 if FilesOn(os).Some? then FilesOn(os) else t.files)
    ensures os.text.None? ==>
      forall text :: TextPending(Holding(Text(text)), Poll(os, t, NO_FAULTS).0) == [Text(text)]
  {
    hide FilesOn;
  }

  /** `n` polls of an untouched clipboard with good reads. */
  function PollMany(os: OsClipboard, t: Trackers, n: nat): (Trackers, seq<ClipChange>)
    decreases n
  {
    if n == 0 then (t, [])
    else
      var (t', change) := Poll(os, t, NO_FAULTS);
      var (t'', rest) := PollMany(os, t', n - 1);
      (t'', (if change.Some? then [change.value] else []) + rest)
  }

  /** Whatever the trackers, an untouched clipboard makes the polls emit each pending slot once,
      files first, then image, then text: at most three, and nothing afterwards. */
  lemma {:induction false} PollQuiescence(os: OsClipboard, t: Trackers, n: nat)
    ensures |Pending(os, t)| <= 3
    ensures PollMany(os, t, n).1 == if n < |Pending(os, t)| then Pending(os, t)[..n] else Pending(os, t)
    ensures n >= |Pending(os, t)| ==> Pending(os, PollMany(os, t, n).0) == []
    decreases n
  {
    hide Poll, Pending;
    if n > 0 {
      PollConsumes(os, t, NO_FAULTS);
      PollQuiescence(os, Poll(os, t, NO_FAULTS).0, n - 1);
    }
  }

  /** A change that comes back from the clipboard as it was put there. */
  predicate Faithful(change: ClipChange) {
    change.Files? ==> |change.paths| > 0 && forall p :: p in change.paths ==> RoundTrips(p)
  }

  /** After a successful write nothing is pending, so the next poll is silent: exactly when the
      change is not a file list that the clipboard alters. */
  lemma AppliedIsSilentIff(os: OsClipboard, t: Trackers, change: ClipChange)
    requires change != Files([])
    ensures var (os', t') := Apply(os, t, change, true);
            Pending(os', t') == [] <==> Faithful(change)
  {
    hide RenderUriList, ParseUriList, RoundTrips;
    if change.Files? {
      UriListRoundTrip(change.paths);
      ListComesBack(change.paths);
      BackLength(change.paths);
      var (os', t') := Apply(os, t, change, true);
      assert FilesOn(os') == Some(ParseUriList(RenderUriList(change.paths)));
    }
  }

  /** Two components under no leading slash read back as a host and a path: such a list is taken for a
      local copy by the very next poll. */
  lemma RelativePathEchoes(os: OsClipboard, t: Trackers)
    ensures var change := Files([Utf8.Encode("a/b")]);
            var (os', t') := Apply(os, t, change, true);
            && !Faithful(change)
            && Poll(os', t', NO_FAULTS).1.Some? && Poll(os', t', NO_FAULTS).1 != Some(change)
  {
    var path, change := Utf8.Encode("a/b"), Files([Utf8.Encode("a/b")]);
    Utf8.RoundTrip("a/b");
    assert "a/b"[0] == 'a' && "a/b"[1] == '/' && "localhost"[0] == 'l';
    assert path in change.paths && !RoundTrips(path);
    hide RoundTrips, Poll, Utf8.Encode, Faithful;
    AppliedIsSilentIff(os, t, change);
    var (os', t') := Apply(os, t, change, true);
    PollConsumes(os', t', NO_FAULTS);
    assert !Faithful(change) by { UnfaithfulPath(path, change.paths); }
    assert t'.files == Some(change.paths);
  }

  lemma UnfaithfulPath(path: Path, paths: seq<Path>)
    requires path in paths && !RoundTrips(path)
    ensures !Faithful(Files(paths))
  {
    hide RoundTrips;
  }

  lemma {:induction false} BackLength(paths: seq<Path>)
    ensures |Back(paths)| == |paths|
  {
    hide PathBack;
    if |paths| > 0 {
      BackLength(paths[1..]);
    }
  }

  /** Applying a remote change never adds anything to publish. */
  lemma ApplyAddsNothing(os: OsClipboard, t: Trackers, change: ClipChange, ok: bool)
    requires Faithful(change)
    ensures var (os', t') := Apply(os, t, change, ok);
            |Pending(os', t')| <= |Pending(os, t)|
  {
    hide Pending, Faithful;
    FaithfulIsNotEmpty(change);
    AppliedIsSilentIff(os, t, change);
  }

  lemma FaithfulIsNotEmpty(change: ClipChange)
    requires Faithful(change)
    ensures change != Files([])
  {}
}
