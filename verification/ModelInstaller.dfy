/** Installing a pinned model bundle so that a crash at any moment leaves only pinned files,
    leftovers of interrupted downloads and no false manifest. */
module ModelInstaller {
  import opened Ledger

  type Bytes = seq<nat>

  /** Pinned files by number, the manifest, and uniquely named temporary files. */
  datatype Name = Pinned(i: nat) | Manifest | Temp(n: nat)

  /** `exists` follows a link, so it misses a dangling one. */
  datatype Entry = File(bytes: Bytes) | Directory | Link(dangling: bool)

  datatype Pin = Pin(size: nat, sha: string)

  /** What the manifest file says: whether it names this model and revision, and its records. */
  datatype Document = Document(identity: bool, records: map<nat, Pin>)

  /** An operation may raise, or the process may die before or after it. */
  datatype Mishap = Fine | Raise | DieBefore | DieAfter

  datatype Outcome<+T> = Done(value: T) | Threw | Died

  datatype Report = NoManifest | BadIdentity | Checked(missing: seq<nat>, mismatched: seq<nat>)

  datatype Result = Result(downloaded: seq<nat>, reused: bool)

  const MAX_MANIFEST: nat := 256 * 1024

  function Flat(chunks: seq<Bytes>): Bytes
  {
    if chunks == [] then [] else Flat(chunks[..|chunks| - 1]) + chunks[|chunks| - 1]
  }

  lemma FlatNext(chunks: seq<Bytes>, k: nat)
    requires k < |chunks|
    ensures Flat(chunks[..k + 1]) == Flat(chunks[..k]) + chunks[k]
  {
    assert chunks[..k + 1][..k] == chunks[..k];
  }

  lemma {:induction false} FlatPrefix(chunks: seq<Bytes>, k: nat)
    requires k <= |chunks|
    ensures |Flat(chunks[..k])| <= |Flat(chunks)|
    decreases |chunks| - k
  {
    if k == |chunks| {
      assert chunks[..k] == chunks;
    } else {
      FlatNext(chunks, k);
      FlatPrefix(chunks, k + 1);
    }
  }

  class Installer {
    const pins: seq<Pin>
    const sha: Bytes -> string
    const parse: Bytes -> Option<Document>
    const render: Document -> Bytes
    const net: nat -> seq<Bytes>  // what the n-th request delivers, chunk by chunk
    const faults: nat -> Mishap

    var files: map<Name, Entry>
    var serial: nat              // temporary names used so far
    var clock: nat
    var requests: nat

    constructor (pins: seq<Pin>, sha: Bytes -> string, parse: Bytes -> Option<Document>, render: Document -> Bytes,
                 net: nat -> seq<Bytes>, faults: nat -> Mishap, files: map<Name, Entry>)
      requires forall n: nat :: Temp(n) !in files
      ensures Valid() && this.files == files && requests == 0
      ensures this.pins == pins && this.sha == sha && this.parse == parse && this.render == render
      ensures this.net == net && this.faults == faults && clock == 0
    {
      this.pins, this.sha, this.parse, this.render := pins, sha, parse, render;
      this.net, this.faults, this.files := net, faults, files;
      serial, clock, requests := 0, 0, 0;
    }

    ghost predicate Valid()
      reads this`files, this`serial
    {
      forall n: nat :: Temp(n) in files ==> n < serial
    }

    predicate Matches(i: nat, bytes: Bytes)
    {
      i < |pins| && |bytes| == pins[i].size && sha(bytes) == pins[i].sha
    }

    predicate IsFile(files: map<Name, Entry>, n: Name)
    {
      n in files && files[n].File?
    }

    /** The pin is present and right. */
    predicate Present(files: map<Name, Entry>, i: nat)
    {
      IsFile(files, Pinned(i)) && Matches(i, files[Pinned(i)].bytes)
    }

    ghost predicate AllPresent(files: map<Name, Entry>)
    {
      forall i :: 0 <= i < |pins| ==> Present(files, i)
    }

    /** Every present pinned file matches its pin. */
    ghost predicate PinsMatch(files: map<Name, Entry>)
    {
      forall i :: IsFile(files, Pinned(i)) ==> Matches(i, files[Pinned(i)].bytes)
    }

    function OwnDocument(): Document
    {
      Document(true, map i: nat | i < |pins| :: pins[i])
    }

    predicate OwnManifest(files: map<Name, Entry>)
    {
      Manifest in files && files[Manifest] == File(render(OwnDocument()))
    }

    predicate Same(before: map<Name, Entry>, after: map<Name, Entry>, n: Name)
    {
      (n in after <==> n in before) && (n in after ==> after[n] == before[n])
    }

    /** Apart from the target and temporary files nothing changes. */
    ghost predicate Elsewhere(before: map<Name, Entry>, after: map<Name, Entry>, target: Name)
    {
      forall n: Name :: !n.Temp? && n != target ==> (n in after <==> n in before) && (n in after ==> after[n] == before[n])
    }

    /** A manifest of our own implies the files it lists. */
    ghost predicate ManifestTrue(files: map<Name, Entry>)
    {
      OwnManifest(files) ==> AllPresent(files)
    }

    /** Regular files other than the manifest stay as they are. */
    ghost predicate Kept(before: map<Name, Entry>, after: map<Name, Entry>)
    {
      forall n :: n != Manifest && IsFile(before, n) ==> n in after && after[n] == before[n]
    }

    /** A pinned file that is new is right. */
    ghost predicate NewMatch(before: map<Name, Entry>, after: map<Name, Entry>)
    {
      forall i :: IsFile(after, Pinned(i)) && !IsFile(before, Pinned(i)) ==> Matches(i, after[Pinned(i)].bytes)
    }

    ghost predicate Grown(before: map<Name, Entry>, after: map<Name, Entry>)
    {
      Kept(before, after) && NewMatch(before, after)
    }

    /** Nothing stands where the pin has to go: no directory, and no link to something. */
    predicate Clear(files: map<Name, Entry>, i: nat)
    {
      Pinned(i) in files ==> files[Pinned(i)].File? || files[Pinned(i)] == Link(true)
    }

    ghost predicate Unobstructed(files: map<Name, Entry>)
    {
      && (forall i :: 0 <= i < |pins| ==> Clear(files, i))
      && !(Manifest in files && files[Manifest].Directory?)
    }

    /** No present pin is wrong. */
    ghost predicate NoneWrong(files: map<Name, Entry>)
    {
      forall i :: 0 <= i < |pins| && IsFile(files, Pinned(i)) ==> Present(files, i)
    }

    function AbsentBefore(files: map<Name, Entry>, i: nat): nat
    {
      if i == 0 then 0 else AbsentBefore(files, i - 1) + if IsFile(files, Pinned(i - 1)) then 0 else 1
    }

    /** From request `r` on the network delivers each absent pin, in order. */
    ghost predicate Delivers(files: map<Name, Entry>, r: nat)
    {
      forall i :: 0 <= i < |pins| && !IsFile(files, Pinned(i)) ==> Matches(i, Flat(net(r + AbsentBefore(files, i))))
    }

    /** The pin is there, or can be had with request `r`. */
    ghost predicate Comes(files: map<Name, Entry>, i: nat, r: nat)
    {
      Present(files, i) || (!IsFile(files, Pinned(i)) && Clear(files, i) && Matches(i, Flat(net(r))))
    }

    /** The manifest this program writes is one it can read. */
    ghost predicate ReadsOwn()
    {
      |render(OwnDocument())| <= MAX_MANIFEST && parse(render(OwnDocument())) == Some(OwnDocument())
    }

    /** No statement in the range goes wrong. */
    ghost predicate Quiet(from: nat, to: nat)
    {
      forall k :: from <= k < to ==> faults(k).Fine?
    }

    method Tick() returns (fault: Mishap)
      modifies this`clock
      ensures fault == faults(old(clock)) && clock == old(clock) + 1
    {
      fault := faults(clock);
      clock := clock + 1;
    }

    // ---------------------------------------------------------------- verify

    function Readable(files: map<Name, Entry>): Option<Document>
    {
      if IsFile(files, Manifest) && |files[Manifest].bytes| <= MAX_MANIFEST then parse(files[Manifest].bytes) else None
    }

    /** The manifest's record of a pin is absent or differs. */
    predicate Drifted(files: map<Name, Entry>, i: nat)
    {
      i < |pins| && Readable(files).Some?
      && (i !in Readable(files).value.records || Readable(files).value.records[i] != pins[i])
    }

    /** A manifest that names this model and revision records every pin as it is. */
    ghost predicate Undrifted(files: map<Name, Entry>)
    {
      Readable(files).Some? && Readable(files).value.identity ==> forall i :: 0 <= i < |pins| ==> !Drifted(files, i)
    }

    /** There is nothing to do: the manifest is ours, its records agree, every pin is present. */
    ghost predicate Verified(files: map<Name, Entry>)
    {
      && Readable(files).Some? && Readable(files).value.identity
      && (forall i :: 0 <= i < |pins| ==> !Drifted(files, i)) && AllPresent(files)
    }

    /** The first `i` pins compared. What is mismatched has a drifted record or is a wrong file;
        what is missing has the right record and, if no read failed, no file; the rest is right. */
    ghost predicate Compared(files: map<Name, Entry>, i: nat, missing: seq<nat>, mismatched: seq<nat>, quiet: bool)
    {
      && (forall j: nat :: j in mismatched ==>
            j < i && (Drifted(files, j) || (IsFile(files, Pinned(j)) && !Present(files, j))))
      && (forall j: nat :: j in missing ==> j < i && !Drifted(files, j) && (quiet ==> !IsFile(files, Pinned(j))))
      && (forall j: nat :: j < i && j !in missing && j !in mismatched ==> Present(files, j) && !Drifted(files, j))
    }

    lemma ComparedNext(files: map<Name, Entry>, i: nat, missing: seq<nat>, mismatched: seq<nat>, quiet: bool)
      requires Compared(files, i, missing, mismatched, quiet)
      ensures Drifted(files, i) || (IsFile(files, Pinned(i)) && !Present(files, i)) ==>
        Compared(files, i + 1, missing, mismatched + [i], quiet)
      ensures !Drifted(files, i) && (!quiet || !IsFile(files, Pinned(i))) ==>
        Compared(files, i + 1, missing + [i], mismatched, quiet)
      ensures Present(files, i) && !Drifted(files, i) ==> Compared(files, i + 1, missing, mismatched, quiet)
    {
      hide Drifted, Present;
    }

    /** A failed read may come later than a comparison. */
    lemma ComparedAnyway(files: map<Name, Entry>, i: nat, missing: seq<nat>, mismatched: seq<nat>, quiet: bool, later: bool)
      requires Compared(files, i, missing, mismatched, quiet) && (later ==> quiet)
      ensures Compared(files, i, missing, mismatched, later)
    {
    }

    /** A read that fails counts the file as missing. Changes nothing. */
    method Verify() returns (o: Outcome<Report>)
      modifies this`clock
      ensures clock >= old(clock)
      ensures o.Done? ==> (o.value.NoManifest? <==> Readable(files).None?)
      ensures o.Done? && !o.value.NoManifest? ==> (o.value.BadIdentity? <==> !Readable(files).value.identity)
      ensures o.Done? && o.value.Checked? ==>
        Compared(files, |pins|, o.value.missing, o.value.mismatched, Quiet(old(clock), clock))
      ensures (forall i :: 0 <= i < |pins| ==> Clear(files, i)) && Quiet(old(clock), clock) ==> o.Done?
    {
      var manifest := Readable(files);
      if manifest.None? {
        return Done(NoManifest);
      }
      if !manifest.value.identity {
        return Done(BadIdentity);
      }
      hide Readable, Present, Compared;
      var missing: seq<nat> := [];
      var mismatched: seq<nat> := [];
      ComparedNone(files);
      for i := 0 to |pins|
        invariant clock >= old(clock)
        invariant Compared(files, i, missing, mismatched, Quiet(old(clock), clock))
      {
        var n := Pinned(i);
        if n in files && files[n].Link? && !files[n].dangling {
          assert !Clear(files, i);
          return Threw;
        }
        ghost var quiet := Quiet(old(clock), clock);
        ComparedNext(files, i, missing, mismatched, quiet);
        if i !in manifest.value.records || manifest.value.records[i] != pins[i] {
          mismatched := mismatched + [i];
        } else if !IsFile(files, n) {
          missing := missing + [i];
        } else {
          var fault := Tick();
          if fault.DieBefore? || fault.DieAfter? {
            return Died;
          }
          ComparedAnyway(files, i, missing, mismatched, quiet, Quiet(old(clock), clock));
          ComparedNext(files, i, missing, mismatched, Quiet(old(clock), clock));
          PresentMeans(files, i);
          if fault.Raise? {
            missing := missing + [i];
          } else if !Matches(i, files[n].bytes) {
            mismatched := mismatched + [i];
          }
        }
      }
      o := Done(Checked(missing, mismatched));
    }

    lemma ComparedNone(files: map<Name, Entry>)
      ensures forall quiet :: Compared(files, 0, [], [], quiet)
    {
    }

    lemma PresentMeans(files: map<Name, Entry>, i: nat)
      ensures Present(files, i) <==> IsFile(files, Pinned(i)) && Matches(i, files[Pinned(i)].bytes)
    {
    }

    /** Nothing missing and nothing mismatched, exactly when the installation is verified. */
    lemma ComparedClean(files: map<Name, Entry>, missing: seq<nat>, mismatched: seq<nat>, quiet: bool)
      requires Compared(files, |pins|, missing, mismatched, quiet)
      requires Readable(files).Some? && Readable(files).value.identity
      ensures missing == [] && mismatched == [] ==> Verified(files)
      ensures quiet && Verified(files) ==> missing == [] && mismatched == []
    {
      hide Readable, Drifted;
      if quiet && Verified(files) {
        PresentFiles(files);
        if missing != [] {
          SomeIn(missing);
        }
        if mismatched != [] {
          SomeIn(mismatched);
        }
      }
    }

    lemma SomeIn(s: seq<nat>)
      requires s != []
      ensures exists j: nat :: j in s
    {
      assert s[0] in s;
    }

    lemma PresentFiles(files: map<Name, Entry>)
      requires AllPresent(files)
      ensures forall i :: 0 <= i < |pins| ==> IsFile(files, Pinned(i)) && Clear(files, i)
    {
      forall i | 0 <= i < |pins|
        ensures IsFile(files, Pinned(i)) && Clear(files, i)
      {
        assert Present(files, i);
      }
    }

    /** Nothing mismatched: no record has drifted, and if no read failed, no pin is wrong. */
    lemma ComparedRight(files: map<Name, Entry>, missing: seq<nat>, mismatched: seq<nat>, quiet: bool)
      requires Compared(files, |pins|, missing, mismatched, quiet)
      ensures mismatched == [] ==> Undrifted(files) && (quiet ==> NoneWrong(files))
      ensures mismatched != [] && Readable(files).Some? && Readable(files).value.identity ==> !Undrifted(files) || !NoneWrong(files)
    {
      hide Readable, Present;
      if mismatched != [] {
        var j := mismatched[0];
        assert j in mismatched;
        assert !Drifted(files, j) ==> j < |pins| && IsFile(files, Pinned(j)) && !Present(files, j);
      }
    }

    // ---------------------------------------------------------------- writing

    /** Removes the temporary file if it can. */
    method Discard(t: Name) returns (died: bool)
      requires Valid() && t.Temp?
      modifies this`files, this`clock
      ensures Valid() && clock > old(clock)
      ensures files == old(files) || files == old(files) - {t}
    {
      var fault := Tick();
      if fault.Fine? || fault.DieAfter? {
        files := files - {t};
      }
      died := fault.DieBefore? || fault.DieAfter?;
    }

    /** A fresh temporary file, still empty. */
    method CreateTemp() returns (t: Name)
      requires Valid()
      modifies this`files, this`serial
      ensures Valid() && t == Temp(old(serial)) && t !in old(files) && files == old(files)[t := File([])]
    {
      t := Temp(serial);
      serial := serial + 1;
      files := files[t := File([])];
    }

    method FillTemp(t: Name, bytes: Bytes)
      requires Valid() && t in files
      modifies this`files
      ensures Valid() && files == old(files)[t := File(bytes)]
    {
      files := files[t := File(bytes)];
    }

    lemma NoChange(files: map<Name, Entry>, target: Name)
      ensures Grown(files, files) && Elsewhere(files, files, target)
    {
    }

    lemma TempOnly(before: map<Name, Entry>, t: Name, entry: Entry, target: Name)
      requires t.Temp? && !target.Temp? && t !in before
      ensures var after := before[t := entry];
        Grown(before, after) && Elsewhere(before, after, target) && after - {t} == before
    {
    }

    lemma TempMoved(before: map<Name, Entry>, t: Name, bytes: Bytes, i: nat)
      requires t.Temp? && t !in before && Matches(i, bytes) && !IsFile(before, Pinned(i))
      ensures var after := before[t := File(bytes)][Pinned(i) := File(bytes)] - {t};
        Grown(before, after) && Elsewhere(before, after, Pinned(i)) && Present(after, i)
    {
    }

    /** One request, streamed to a fresh temporary file. */
    method Stream(i: nat) returns (o: Outcome<Bytes>, t: Name)
      requires Valid() && i < |pins|
      modifies this`files, this`serial, this`clock, this`requests
      ensures Valid() && clock > old(clock) && requests <= old(requests) + 1
      ensures Grown(old(files), files) && Elsewhere(old(files), files, Pinned(i))
      ensures o.Done? ==> t.Temp? && t !in old(files) && files == old(files)[t := File(o.value)]
      ensures o.Done? ==> o.value == Flat(net(old(requests))) && requests == old(requests) + 1
      ensures Quiet(old(clock), clock) && |Flat(net(old(requests)))| <= pins[i].size ==> o.Done?
    {
      hide Grown, Elsewhere, Valid, Flat;
      NoChange(files, Pinned(i));
      t := Manifest;
      var fault := Tick();
      if !fault.Fine? {
        o := if fault.Raise? then Threw else Died;
        return;
      }
      var chunks := net(requests);
      requests := requests + 1;
      ghost var before := files;
      t := CreateTemp();
      var written: Bytes := [];
      TempOnly(before, t, File(written), Pinned(i));
      FlatNone(chunks);
      var k := 0;
      while k < |chunks|
        invariant 0 <= k <= |chunks| && Valid() && clock > old(clock)
        invariant files == before[t := File(written)] && requests == old(requests) + 1
        invariant written == Flat(chunks[..k])
        invariant Grown(before, files) && Elsewhere(before, files, Pinned(i))
      {
        FlatNext(chunks, k);
        FlatPrefix(chunks, k + 1);
        fault := Tick();
        if fault.DieBefore? || fault.DieAfter? {
          return Died, t;
        }
        if fault.Raise? || |written| + |chunks[k]| > pins[i].size {
          TempOnly(before, t, File(written), Pinned(i));
          var died := Discard(t);
          o := if died then Died else Threw;
          return;
        }
        written := written + chunks[k];
        TempOnly(before, t, File(written), Pinned(i));
        FillTemp(t, written);
        k := k + 1;
      }
      assert chunks[..k] == chunks;
      o := Done(written);
    }

    /** Streams to a temporary file, checks, and moves it into place. */
    method Download(i: nat) returns (o: Outcome<()>)
      requires Valid() && i < |pins| && !IsFile(files, Pinned(i))
      modifies this`files, this`serial, this`clock, this`requests
      ensures Valid() && clock > old(clock) && requests <= old(requests) + 1
      ensures Grown(old(files), files)
      ensures Elsewhere(old(files), files, Pinned(i))
      ensures o.Done? ==> Present(files, i) && requests == old(requests) + 1
      ensures Quiet(old(clock), clock) && Clear(old(files), i) && Matches(i, Flat(net(old(requests)))) ==> o.Done?
    {
      hide Grown, Elsewhere, Present, Valid, Flat;
      ghost var before := files;
      NoChange(before, Pinned(i));
      var streamed, t := Stream(i);
      if !streamed.Done? {
        return if streamed.Threw? then Threw else Died;
      }
      var written := streamed.value;
      var fault := Tick();
      if fault.DieBefore? || fault.DieAfter? {
        return Died;
      }
      TempOnly(before, t, File(written), Pinned(i));
      if fault.Raise? || !Matches(i, written) {
        var died := Discard(t);
        return if died then Died else Threw;
      }
      TempMoved(before, t, written, i);
      var moved := MoveIntoPlace(t, Pinned(i));
      if moved.Threw? {
        var died := Discard(t);
        return if died then Died else Threw;
      }
      o := moved;
    }

    lemma FlatNone(chunks: seq<Bytes>)
      ensures Flat(chunks[..0]) == []
    {
    }

    /** The atomic replacement; a directory in the way makes it raise. */
    method MoveIntoPlace(t: Name, target: Name) returns (o: Outcome<()>)
      requires Valid() && t.Temp? && !target.Temp? && t in files
      modifies this`files, this`clock
      ensures Valid() && clock > old(clock)
      ensures files == old(files) || files == old(files)[target := old(files)[t]] - {t}
      ensures o.Done? ==> files == old(files)[target := old(files)[t]] - {t}
      ensures o.Threw? ==> files == old(files)
      ensures !(target in old(files) && old(files)[target].Directory?) && faults(old(clock)).Fine? ==> o.Done?
    {
      var fault := Tick();
      if fault.Raise? || (target in files && files[target].Directory?) {
        return Threw;
      }
      if !fault.DieBefore? {
        files := files[target := files[t]] - {t};
      }
      o := if fault.Fine? then Done(()) else Died;
    }

    /** The manifest may be ours now; nothing else has changed. */
    ghost predicate Rewritten(before: map<Name, Entry>, after: map<Name, Entry>)
    {
      Kept(before, after) && Elsewhere(before, after, Manifest) && (Same(before, after, Manifest) || OwnManifest(after))
    }

    lemma TempRewritten(before: map<Name, Entry>, t: Name, bytes: Bytes)
      requires t.Temp? && t !in before
      ensures Rewritten(before, before[t := File(bytes)]) && before[t := File(bytes)] - {t} == before
    {
    }

    lemma ManifestMoved(before: map<Name, Entry>, t: Name)
      requires t.Temp? && t !in before
      ensures var bytes := render(OwnDocument());
        var after := before[t := File(bytes)][Manifest := File(bytes)] - {t};
        Rewritten(before, after) && OwnManifest(after)
    {
    }

    /** The manifest through a temporary file of its own. */
    method WriteManifest() returns (o: Outcome<()>)
      requires Valid()
      modifies this`files, this`serial, this`clock
      ensures Valid() && clock > old(clock)
      ensures Rewritten(old(files), files)
      ensures o.Done? ==> OwnManifest(files)
      ensures Quiet(old(clock), clock) && !(Manifest in old(files) && old(files)[Manifest].Directory?) ==> o.Done?
    {
      hide Valid, Rewritten, OwnManifest, OwnDocument;
      ghost var before := files;
      var bytes := render(OwnDocument());
      Unwritten(before);
      var fault := Tick();
      if !fault.Fine? {
        return if fault.Raise? then Threw else Died;
      }
      var t := CreateTemp();
      TempRewritten(before, t, []);
      TempRewritten(before, t, bytes);
      ManifestMoved(before, t);
      fault := Tick();
      if fault.DieBefore? || fault.DieAfter? {
        return Died;
      }
      if fault.Raise? {
        var died := Discard(t);
        return if died then Died else Threw;
      }
      FillTemp(t, bytes);
      assert files == before[t := File(bytes)];
      var moved := MoveIntoPlace(t, Manifest);
      if moved.Threw? {
        var died := Discard(t);
        return if died then Died else Threw;
      }
      o := moved;
    }

    lemma Unwritten(before: map<Name, Entry>)
      ensures Rewritten(before, before)
    {
    }

    // ---------------------------------------------------------------- install

    /** One pinned file: reuse a right one, refuse a wrong one, download a missing one. */
    method InstallPin(i: nat) returns (o: Outcome<bool>)
      requires Valid() && i < |pins|
      modifies this`files, this`serial, this`clock, this`requests
      ensures Valid() && clock >= old(clock)
      ensures Grown(old(files), files)
      ensures Elsewhere(old(files), files, Pinned(i))
      ensures o.Done? ==> Present(files, i) && (o.value <==> !Present(old(files), i))
      ensures IsFile(old(files), Pinned(i)) ==> files == old(files) && requests == old(requests)
      ensures IsFile(old(files), Pinned(i)) && !Present(old(files), i) ==> !o.Done?
      ensures Present(old(files), i) && Quiet(old(clock), clock) ==> o.Done?
      ensures Quiet(old(clock), clock) && Comes(old(files), i, old(requests)) ==> o.Done?
      ensures o.Done? ==> requests == old(requests) + if IsFile(old(files), Pinned(i)) then 0 else 1
    {
      var n := Pinned(i);
      if n in files && files[n].Link? && !files[n].dangling {
        return Threw;
      }
      var fault := Tick();
      if !fault.Fine? {
        return if fault.Raise? then Threw else Died;
      }
      if IsFile(files, n) {
        return if Matches(i, files[n].bytes) then Done(false) else Threw;
      }
      var downloaded := Download(i);
      o := match downloaded
        case Done(_) => Done(true)
        case Threw => Threw
        case Died => Died;
    }

    lemma GrownTwice(a: map<Name, Entry>, b: map<Name, Entry>, c: map<Name, Entry>)
      requires Grown(a, b) && Grown(b, c)
      ensures Grown(a, c)
    {
      forall i | IsFile(c, Pinned(i)) && !IsFile(a, Pinned(i))
        ensures Matches(i, c[Pinned(i)].bytes)
      {
        if IsFile(b, Pinned(i)) {
          assert c[Pinned(i)] == b[Pinned(i)];
        }
      }
    }

    lemma PresentStays(a: map<Name, Entry>, b: map<Name, Entry>, i: nat)
      requires Kept(a, b) && Present(a, i)
      ensures Present(b, i)
    {
    }

    /** The first `i` pins are in place. */
    ghost predicate InPlace(before: map<Name, Entry>, after: map<Name, Entry>, i: nat, downloaded: seq<nat>)
    {
      && Grown(before, after) && Same(before, after, Manifest)
      && (forall j :: 0 <= j < i ==> Present(after, j) && (IsFile(before, Pinned(j)) ==> Present(before, j)))
      && (forall j: nat :: i <= j < |pins| ==> Same(before, after, Pinned(j)))
      && (forall j: nat :: j in downloaded <==> j < i && !Present(before, j))
      && (AllPresent(before) ==> after == before)
    }

    lemma InPlaceNone(files: map<Name, Entry>)
      ensures InPlace(files, files, 0, [])
    {
    }

    lemma InPlaceNext(before: map<Name, Entry>, files: map<Name, Entry>, after: map<Name, Entry>, i: nat,
                      downloaded: seq<nat>, isNew: bool)
      requires InPlace(before, files, i, downloaded) && i < |pins|
      requires Grown(files, after) && Elsewhere(files, after, Pinned(i)) && Present(after, i)
      requires isNew <==> !Present(files, i)
      requires IsFile(files, Pinned(i)) ==> Present(files, i) && after == files
      ensures InPlace(before, after, i + 1, downloaded + if isNew then [i] else [])
      ensures Present(before, i) <==> !isNew
      ensures IsFile(before, Pinned(i)) <==> IsFile(files, Pinned(i))
    {
      GrownTwice(before, files, after);
      hide Matches, Grown;
      assert Same(before, files, Pinned(i));
      forall j | 0 <= j < i
        ensures Present(after, j)
      {
        GrownKept(files, after);
        PresentStays(files, after, j);
      }
    }

    lemma GrownKept(before: map<Name, Entry>, after: map<Name, Entry>)
      requires Grown(before, after)
      ensures Kept(before, after)
    {
    }

    /** The next pin, seen from the files at the start. */
    lemma PinAhead(before: map<Name, Entry>, files: map<Name, Entry>, i: nat, downloaded: seq<nat>, r: nat)
      requires InPlace(before, files, i, downloaded) && i < |pins|
      ensures AllPresent(before) ==> Present(files, i)
      ensures IsFile(files, Pinned(i)) && !Present(files, i) ==> !NoneWrong(before)
      ensures Unobstructed(before) && Delivers(before, r) && NoneWrong(before) ==>
        Comes(files, i, r + AbsentBefore(before, i))
    {
      hide Matches, Grown, Flat, AbsentBefore;
      assert Same(before, files, Pinned(i));
      assert AllPresent(before) ==> Present(before, i);
      assert Unobstructed(before) ==> Clear(before, i);
      assert Present(before, i) <==> Present(files, i);
      assert Delivers(before, r) && !IsFile(before, Pinned(i)) ==> Matches(i, Flat(net(r + AbsentBefore(before, i))));
    }

    lemma InPlaceAll(before: map<Name, Entry>, after: map<Name, Entry>, downloaded: seq<nat>)
      requires InPlace(before, after, |pins|, downloaded)
      ensures Grown(before, after) && Same(before, after, Manifest) && AllPresent(after) && NoneWrong(before)
      ensures forall i: nat :: i in downloaded <==> i < |pins| && !Present(before, i)
      ensures AllPresent(before) ==> after == before
    {
      hide Matches, Grown;
    }

    lemma InPlaceGrown(before: map<Name, Entry>, files: map<Name, Entry>, after: map<Name, Entry>, i: nat, downloaded: seq<nat>)
      requires InPlace(before, files, i, downloaded) && i < |pins|
      requires Grown(files, after) && Elsewhere(files, after, Pinned(i))
      ensures Grown(before, after) && Same(before, after, Manifest)
    {
      GrownTwice(before, files, after);
      hide Matches, Grown;
    }

    lemma AbsentNext(files: map<Name, Entry>, i: nat)
      ensures AbsentBefore(files, 0) == 0
      ensures AbsentBefore(files, i + 1) == AbsentBefore(files, i) + if IsFile(files, Pinned(i)) then 0 else 1
    {
    }

    lemma QuietPart(from: nat, at: nat, to: nat)
      requires from <= at <= to && Quiet(from, to)
      ensures Quiet(from, at) && Quiet(at, to)
    {
    }

    /** All pinned files in order; the first that cannot be had ends the run. */
    method InstallPins() returns (o: Outcome<seq<nat>>)
      requires Valid()
      modifies this`files, this`serial, this`clock, this`requests
      ensures Valid() && clock >= old(clock)
      ensures Grown(old(files), files)
      ensures Same(old(files), files, Manifest)
      ensures o.Done? ==> AllPresent(files) && NoneWrong(old(files))
      ensures o.Done? ==> forall i: nat :: i in o.value <==> i < |pins| && !Present(old(files), i)
      ensures AllPresent(old(files)) ==> files == old(files) && requests == old(requests)
      ensures AllPresent(old(files)) && Quiet(old(clock), clock) ==> o.Done?
      ensures Unobstructed(old(files)) && Delivers(old(files), old(requests)) && Quiet(old(clock), clock) ==>
        (o.Done? <==> NoneWrong(old(files)))
    {
      hide *;
      var downloaded: seq<nat> := [];
      ghost var before := files;
      InPlaceNone(before);
      AbsentNext(before, 0);
      for i := 0 to |pins|
        invariant Valid() && clock >= old(clock)
        invariant InPlace(before, files, i, downloaded)
        invariant requests == old(requests) + AbsentBefore(before, i)
        invariant AllPresent(before) ==> requests == old(requests)
      {
        ghost var at := clock;
        ghost var now := files;
        PinAhead(before, now, i, downloaded, old(requests));
        AbsentNext(before, i);
        PresentIsFile(now, i);
        var got := InstallPin(i);
        InPlaceGrown(before, now, files, i, downloaded);
        if !got.Done? {
          InPlaceSame(before, now, i, downloaded);
          if Quiet(old(clock), clock) {
            QuietPart(old(clock), at, clock);
          }
          return if got.Threw? then Threw else Died;
        }
        InPlaceNext(before, now, files, i, downloaded, got.value);
        if got.value {
          downloaded := downloaded + [i];
        }
        assert downloaded + [] == downloaded;
      }
      InPlaceAll(before, files, downloaded);
      o := Done(downloaded);
    }

    lemma PresentIsFile(files: map<Name, Entry>, i: nat)
      ensures Present(files, i) ==> IsFile(files, Pinned(i))
    {
    }

    lemma InPlaceSame(before: map<Name, Entry>, files: map<Name, Entry>, i: nat, downloaded: seq<nat>)
      requires InPlace(before, files, i, downloaded)
      ensures AllPresent(before) ==> files == before
    {
      hide Matches, Grown;
    }

    /** The manifest may be replaced: no pin is wrong, and what it records has not drifted. */
    ghost predicate Replaceable(files: map<Name, Entry>)
    {
      NoneWrong(files) && Undrifted(files)
    }

    /** The run can go through: nothing obstructs it, the network delivers what is absent, and
        the program can read its own manifest. */
    ghost predicate Supplied(files: map<Name, Entry>, r: nat)
    {
      Unobstructed(files) && Delivers(files, r) && ReadsOwn()
    }

    /** One run. Verified installations are left alone; a mismatch is never repaired. The
        manifest changes only if no pin is wrong and no record has drifted, and a run that
        meets no mishap goes through, and replaces it, exactly then. */
    method Install() returns (o: Outcome<Result>)
      requires Valid()
      modifies this`files, this`serial, this`clock, this`requests
      ensures Valid() && clock >= old(clock)
      ensures Grown(old(files), files)
      ensures Same(old(files), files, Manifest) || (OwnManifest(files) && AllPresent(files))
      ensures !Same(old(files), files, Manifest) ==>
        Replaceable(old(files)) && (Quiet(old(clock), clock) ==> !Verified(old(files)))
      ensures o.Done? ==> AllPresent(files) && (if o.value.reused then Verified(old(files)) && files == old(files)
                                                else OwnManifest(files) && Replaceable(old(files)))
      ensures o.Done? ==> forall i: nat :: i in o.value.downloaded <==> i < |pins| && !Present(old(files), i)
      ensures AllPresent(old(files)) ==> AllPresent(files) && requests == old(requests)
      ensures Verified(old(files)) && Quiet(old(clock), clock) ==> o == Done(Result([], true)) && files == old(files)
      ensures Supplied(old(files), old(requests)) && Quiet(old(clock), clock) ==>
        (o.Done? <==> Replaceable(old(files))) && (o.Done? ==> (o.value.reused <==> Verified(old(files))))
    {
      hide *;
      ghost var before := files;
      ghost var began := clock;
      GrownNothing(before);
      VerifiedMeans(before);
      var current := Verify();
      if !current.Done? {
        return if current.Threw? then Threw else Died;
      }
      if current.value.Checked? {
        ComparedClean(before, current.value.missing, current.value.mismatched, Quiet(began, clock));
        ComparedRight(before, current.value.missing, current.value.mismatched, Quiet(began, clock));
      }
      if current.value == Checked([], []) {
        return Done(Result([], true));
      }
      if current.value.Checked? && current.value.mismatched != [] {
        return Threw;
      }
      ghost var compared := clock;
      o := Complete();
      if Quiet(began, clock) {
        QuietPart(began, compared, clock);
      }
    }

    /** The rest of a run whose first look found something to do and nothing drifted. */
    method Complete() returns (o: Outcome<Result>)
      requires Valid()
      modifies this`files, this`serial, this`clock, this`requests
      ensures Valid() && clock >= old(clock)
      ensures Grown(old(files), files)
      ensures Same(old(files), files, Manifest) || (OwnManifest(files) && AllPresent(files) && NoneWrong(old(files)))
      ensures o.Done? ==> !o.value.reused && AllPresent(files) && OwnManifest(files) && NoneWrong(old(files))
      ensures o.Done? ==> forall i: nat :: i in o.value.downloaded <==> i < |pins| && !Present(old(files), i)
      ensures AllPresent(old(files)) ==> AllPresent(files) && requests == old(requests)
      ensures Supplied(old(files), old(requests)) && Quiet(old(clock), clock) ==> (o.Done? <==> NoneWrong(old(files)))
    {
      hide *;
      ghost var before := files;
      ghost var r := requests;
      SuppliedMeans(before, r);
      var got := InstallPins();
      if !got.Done? {
        PresentGrown(before, files);
        return if got.Threw? then Threw else Died;
      }
      ghost var placed := files;
      ghost var installed := clock;
      ManifestFree(before, placed);
      var written := WriteManifest();
      RewrittenMeans(placed, files);
      ManifestKeeps(before, placed, files);
      SameTwice(before, placed, files);
      ghost var wrote := clock;
      if Quiet(old(clock), clock) {
        QuietPart(old(clock), installed, clock);
      }
      if !written.Done? {
        return if written.Threw? then Threw else Died;
      }
      OwnVerified(files);
      var final := Verify();
      if Quiet(old(clock), clock) {
        QuietPart(old(clock), wrote, clock);
      }
      if final.Done? && final.value.Checked? {
        ComparedClean(files, final.value.missing, final.value.mismatched, Quiet(wrote, clock));
      }
      if !final.Done? {
        return if final.Threw? then Threw else Died;
      }
      if final.value != Checked([], []) {
        return Threw;
      }
      o := Done(Result(got.value, false));
    }

    lemma SuppliedMeans(files: map<Name, Entry>, r: nat)
      ensures Supplied(files, r) ==> Unobstructed(files) && Delivers(files, r) && ReadsOwn()
    {
      hide Delivers, ReadsOwn, Unobstructed;
    }

    lemma ManifestFree(before: map<Name, Entry>, placed: map<Name, Entry>)
      requires Same(before, placed, Manifest)
      ensures Unobstructed(before) ==> !(Manifest in placed && placed[Manifest].Directory?)
    {
    }

    lemma RewrittenMeans(before: map<Name, Entry>, after: map<Name, Entry>)
      requires Rewritten(before, after)
      ensures Kept(before, after) && Elsewhere(before, after, Manifest)
      ensures Same(before, after, Manifest) || OwnManifest(after)
    {
    }

    lemma SameTwice(a: map<Name, Entry>, b: map<Name, Entry>, c: map<Name, Entry>)
      requires Same(a, b, Manifest)
      ensures Same(b, c, Manifest) ==> Same(a, c, Manifest)
    {
    }

    lemma PresentGrown(before: map<Name, Entry>, after: map<Name, Entry>)
      requires Grown(before, after)
      ensures AllPresent(before) ==> AllPresent(after)
    {
      if AllPresent(before) {
        GrownKeepsPresence(before, after);
      }
    }

    /** After a run that wrote its own manifest there is nothing left to do. */
    lemma OwnVerified(files: map<Name, Entry>)
      requires OwnManifest(files) && AllPresent(files)
      ensures ReadsOwn() ==> Verified(files) && Readable(files).Some? && Readable(files).value.identity
      ensures forall i :: 0 <= i < |pins| ==> Clear(files, i)
    {
      PresentFiles(files);
    }

    lemma GrownNothing(files: map<Name, Entry>)
      ensures Grown(files, files) && Same(files, files, Manifest)
    {
    }

    lemma VerifiedMeans(files: map<Name, Entry>)
      ensures Verified(files) ==> AllPresent(files) && Replaceable(files) && Readable(files).Some? && Readable(files).value.identity
      ensures Verified(files) ==> forall i :: 0 <= i < |pins| ==> Clear(files, i)
      ensures Verified(files) ==> forall i: nat :: i < |pins| ==> Present(files, i)
      ensures Readable(files).None? || !Readable(files).value.identity ==> Undrifted(files) && !Verified(files)
      ensures Replaceable(files) <==> NoneWrong(files) && Undrifted(files)
      ensures forall r :: Supplied(files, r) ==> Unobstructed(files) && Delivers(files, r) && ReadsOwn()
      ensures Unobstructed(files) ==> forall i :: 0 <= i < |pins| ==> Clear(files, i)
    {
      hide Readable, Drifted, Delivers, ReadsOwn;
      if Verified(files) {
        PresentFiles(files);
      }
    }

    lemma ManifestKeeps(start: map<Name, Entry>, placed: map<Name, Entry>, after: map<Name, Entry>)
      requires Grown(start, placed) && AllPresent(placed)
      requires Elsewhere(placed, after, Manifest)
      requires Kept(placed, after)
      ensures Grown(start, after) && AllPresent(after)
    {
      forall i | 0 <= i < |pins|
        ensures Present(after, i)
      {
        assert Present(placed, i);
      }
      forall i | IsFile(after, Pinned(i))
        ensures IsFile(placed, Pinned(i)) && after[Pinned(i)] == placed[Pinned(i)]
      {
      }
    }

    lemma GrownKeepsPins(before: map<Name, Entry>, after: map<Name, Entry>)
      requires Grown(before, after) && PinsMatch(before)
      ensures PinsMatch(after)
    {
      forall i | IsFile(after, Pinned(i))
        ensures Matches(i, after[Pinned(i)].bytes)
      {
        if IsFile(before, Pinned(i)) {
          assert after[Pinned(i)] == before[Pinned(i)];
        }
      }
    }

    /** A pin that was wrong stays wrong. */
    lemma GrownWasRight(before: map<Name, Entry>, after: map<Name, Entry>)
      requires Grown(before, after) && NoneWrong(after)
      ensures NoneWrong(before)
    {
      forall i | 0 <= i < |pins| && IsFile(before, Pinned(i))
        ensures Present(before, i)
      {
        assert after[Pinned(i)] == before[Pinned(i)];
        assert Present(after, i);
      }
    }

    lemma GrownKeepsPresence(before: map<Name, Entry>, after: map<Name, Entry>)
      requires Grown(before, after) && AllPresent(before)
      ensures AllPresent(after)
    {
      forall i | 0 <= i < |pins|
        ensures Present(after, i)
      {
        PresentStays(before, after, i);
      }
    }

    /** A manifest that is no manifest of this model, a regular file, is overwritten once every
        pin is there. */
    method ReplaceForeign() returns (o: Outcome<Result>)
      requires Valid() && AllPresent(files) && IsFile(files, Manifest) && ReadsOwn()
      requires Readable(files).None? || !Readable(files).value.identity
      requires forall k :: faults(k).Fine?
      modifies this`files, this`serial, this`clock, this`requests
      ensures Valid() && o.Done? && !o.value.reused && requests == old(requests)
      ensures OwnManifest(files) && !Same(old(files), files, Manifest) && Kept(old(files), files)
    {
      PresentFiles(files);
      PresentSupplied(files, requests);
      hide Readable, AllPresent, Supplied, OwnManifest, Unobstructed, Delivers;
      ghost var before := files;
      VerifiedMeans(before);
      AllPresentRight(before);
      o := Install();
      assert Quiet(old(clock), clock);
      OwnReadable(files);
      ForeignDiffers(before, files);
      GrownKept(before, files);
    }

    lemma PresentSupplied(files: map<Name, Entry>, r: nat)
      requires AllPresent(files) && IsFile(files, Manifest) && ReadsOwn()
      ensures Supplied(files, r)
    {
      PresentFiles(files);
      hide ReadsOwn, Matches, Flat, AbsentBefore;
    }

    lemma AllPresentRight(files: map<Name, Entry>)
      requires AllPresent(files)
      ensures NoneWrong(files)
    {
    }

    lemma OwnReadable(files: map<Name, Entry>)
      requires ReadsOwn()
      ensures OwnManifest(files) ==> Readable(files) == Some(OwnDocument()) && OwnDocument().identity
    {
    }

    lemma ForeignDiffers(before: map<Name, Entry>, after: map<Name, Entry>)
      requires Readable(before).None? || !Readable(before).value.identity
      requires Readable(after).Some? && Readable(after).value.identity
      ensures !Same(before, after, Manifest)
    {
    }

    /** Any number of runs, each of which may fail or die anywhere: what is right stays right,
        no regular file other than the manifest is overwritten, and the manifest only if no pin
        was wrong at the start; a manifest of our own is true. Once every pin is there, as after
        any success, nothing is requested from the network; and runs that are supplied and meet
        no mishap succeed unless a pin is wrong or a record has drifted. */
    method Reruns(times: nat) returns (succeeded: bool)
      requires Valid() && ManifestTrue(files)
      modifies this`files, this`serial, this`clock, this`requests
      ensures Valid() && ManifestTrue(files) && Grown(old(files), files)
      ensures PinsMatch(old(files)) ==> PinsMatch(files)
      ensures !Same(old(files), files, Manifest) ==> NoneWrong(old(files))
      ensures succeeded ==> AllPresent(files) && NoneWrong(old(files))
      ensures AllPresent(old(files)) ==> AllPresent(files) && requests == old(requests)
      ensures times > 0 && Supplied(old(files), old(requests)) && Replaceable(old(files)) && Quiet(old(clock), clock) ==> succeeded
    {
      hide *;
      succeeded := false;
      ghost var before := files;
      RunsBegin(before);
      var i := 0;
      while i < times
        invariant Valid() && clock >= old(clock) && ManifestTrue(files) && Grown(before, files)
        invariant !Same(before, files, Manifest) ==> NoneWrong(before)
        invariant succeeded ==> AllPresent(files) && NoneWrong(before)
        invariant AllPresent(before) ==> AllPresent(files) && requests == old(requests)
        invariant i == 0 ==> files == before && requests == old(requests) && clock == old(clock)
        invariant i > 0 && Supplied(before, old(requests)) && Replaceable(before) && Quiet(old(clock), clock) ==> succeeded
      {
        ghost var now := files;
        ghost var at := clock;
        var o := Install();
        RunsGoOn(before, now, files);
        if Quiet(old(clock), clock) {
          QuietPart(old(clock), at, clock);
        }
        VerifiedMeans(now);
        succeeded := succeeded || o.Done?;
        i := i + 1;
      }
      RunsKeepPins(before, files);
    }

    lemma RunsBegin(files: map<Name, Entry>)
      ensures Grown(files, files) && Same(files, files, Manifest)
    {
    }

    /** One more run. */
    lemma RunsGoOn(before: map<Name, Entry>, now: map<Name, Entry>, after: map<Name, Entry>)
      requires Grown(before, now) && Grown(now, after)
      ensures Grown(before, after)
      ensures AllPresent(now) ==> AllPresent(after)
      ensures NoneWrong(now) ==> NoneWrong(before)
      ensures Same(before, now, Manifest) && Same(now, after, Manifest) ==> Same(before, after, Manifest)
      ensures ManifestTrue(now) && (Same(now, after, Manifest) || (OwnManifest(after) && AllPresent(after))) ==> ManifestTrue(after)
    {
      GrownTwice(before, now, after);
      hide Matches;
      if NoneWrong(now) {
        GrownWasRight(before, now);
      }
      if AllPresent(now) {
        GrownKeepsPresence(now, after);
      }
    }

    lemma RunsKeepPins(before: map<Name, Entry>, after: map<Name, Entry>)
      requires Grown(before, after)
      ensures PinsMatch(before) ==> PinsMatch(after)
    {
      if PinsMatch(before) {
        GrownKeepsPins(before, after);
      }
    }
  }

  /** Whatever an unreadable manifest said, a run without any mishap loses it. */
  method ForeignManifestLost(note: Bytes) returns (before: map<Name, Entry>, after: map<Name, Entry>)
    requires note != [0]
    ensures Manifest in before && before[Manifest] == File(note)
    ensures Manifest in after && after[Manifest] == File([0])
  {
    var pin := Pin(1, "pin");
    var own := Document(true, map[0 := pin]);
    before := map[Pinned(0) := File([7]), Manifest := File(note)];
    var installer := new Installer([pin], b => "pin", b => if b == [0] then Some(own) else None, d => [0],
                                   n => [], k => Fine, before);
    assert installer.OwnDocument() == own;
    var o := installer.ReplaceForeign();
    after := installer.files;
  }
}
