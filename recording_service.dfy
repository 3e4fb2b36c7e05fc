/** The recording store of frontend/services/RecordingService.ts and of its
    older copy services/RecordingService.ts: an ordered, newest-first list of
    recordings kept under one key of a key-value store. The storage, the file
    system and the clock are outside the model; what they report arrives as
    parameters. */
module RecordingStore {
  import opened Wrappers
  import opened RecordingTypes
  import Decimal

  datatype Platform = Web | Ios | Android

  /** The values the service reads from the clock while saving: `Date.now()`
      for the file name and for the id, the ISO time stamp and the locale
      date and time used in the display name. */
  datatype Clock = Clock(fileMillis: nat, idMillis: nat, isoTimestamp: string, localeDate: string, localeTime: string)

  const WebNotSupported: string := "Saving recordings is not supported on web platform"
  const UriNotFound: string := "Recording URI not found"
  const AudioFileNotFound: string := "Audio file not found"

  /** `if (!uri)`: a missing URI, or the empty string, which JavaScript
      also treats as false. */
  predicate UriMissing(uri: Option<string>) {
    uri.None? || uri.value == ""
  }

  /** `recording_${Date.now()}.m4a`; a helper of the two save methods. */
  function FileName(clock: Clock): string {
    "recording_" + Decimal.NatToString(clock.fileMillis) + ".m4a"
  }

  /** `Recording ${toLocaleDateString()} ${toLocaleTimeString()}`; a helper
      of the two save methods. */
  function DisplayName(clock: Clock): string {
    "Recording " + clock.localeDate + " " + clock.localeTime
  }

  /** `recordings.findIndex(r => r.id === id)`: the first position holding
      the id, or -1 when no entry has it. */
  function FirstIndexOf(items: seq<RecordingItem>, id: string): (k: int)
    ensures -1 <= k < |items|
    ensures k == -1 <==> forall j :: 0 <= j < |items| ==> items[j].id != id
    ensures k >= 0 ==> items[k].id == id && forall j :: 0 <= j < k ==> items[j].id != id
  {
    if items == [] then -1
    else if items[0].id == id then 0
    else
      var k := FirstIndexOf(items[1..], id);
      if k == -1 then -1 else k + 1
  }

  /** `recordings.filter(r => r.id !== id)`: every entry without the id. */
  function WithoutId(items: seq<RecordingItem>, id: string): (r: seq<RecordingItem>)
    ensures |r| <= |items|
    ensures forall x :: x in r <==> x in items && x.id != id
  {
    if items == [] then []
    else
      var last := items[|items| - 1];
      WithoutId(items[..|items| - 1], id) + (if last.id != id then [last] else [])
  }

  /** Filtering an entry appended at the end decides that entry alone. */
  lemma WithoutIdSnoc(init: seq<RecordingItem>, x: RecordingItem, id: string)
    ensures WithoutId(init + [x], id) == WithoutId(init, id) + (if x.id != id then [x] else [])
  {
    assert (init + [x])[..|init|] == init;
  }

  /** Positions of the entries that carry the id. */
  ghost function IdIndices(items: seq<RecordingItem>, id: string): set<int> {
    set i | 0 <= i < |items| && items[i].id == id
  }

  /** Filtering removes exactly the entries that carry the id. */
  lemma {:induction false} WithoutIdLength(items: seq<RecordingItem>, id: string)
    ensures |WithoutId(items, id)| == |items| - |IdIndices(items, id)|
  {
    if items != [] {
      var n := |items| - 1;
      var init := items[..n];
      WithoutIdLength(init, id);
      assert init + [items[n]] == items;
      WithoutIdSnoc(init, items[n], id);
      IdIndicesSnoc(items, id);
    }
  }

  /** The last entry adds one position exactly when it has the id. */
  lemma IdIndicesSnoc(items: seq<RecordingItem>, id: string)
    requires items != []
    ensures |IdIndices(items, id)|
         == |IdIndices(items[..|items| - 1], id)| + (if items[|items| - 1].id == id then 1 else 0)
  {
    var n := |items| - 1;
    var init := items[..n];
    var before, after := IdIndices(init, id), IdIndices(items, id);
    assert forall i :: 0 <= i < n ==> init[i] == items[i];
    assert n !in before;
    var added := if items[n].id == id then {n} else {};
    forall i | i in after
      ensures i in before + added
    {
      if i < n {
        assert init[i].id == id;
      }
    }
    forall i | i in before + added
      ensures i in after
    {
    }
    assert after == before + added;
  }

  /** Filtering keeps the relative order: the kept entries of a + b are
      those of a followed by those of b. */
  lemma {:induction false} WithoutIdAppend(a: seq<RecordingItem>, b: seq<RecordingItem>, id: string)
    ensures WithoutId(a + b, id) == WithoutId(a, id) + WithoutId(b, id)
  {
    if b != [] {
      var n := |b| - 1;
      WithoutIdAppend(a, b[..n], id);
      assert (a + b)[..|a + b| - 1] == a + b[..n];
    } else {
      assert a + b == a;
    }
  }

  /** Filtering out an id that no entry has changes nothing. */
  lemma {:induction false} WithoutIdAbsent(items: seq<RecordingItem>, id: string)
    requires forall j :: 0 <= j < |items| ==> items[j].id != id
    ensures WithoutId(items, id) == items
  {
    if items != [] {
      var n := |items| - 1;
      var init := items[..n];
      assert init + [items[n]] == items;
      WithoutIdAbsent(init, id);
      WithoutIdSnoc(init, items[n], id);
    }
  }

  /** Deleting the id of a just-saved item whose id was new gives back the
      list as it was before the save. */
  lemma SaveThenDelete(item: RecordingItem, items: seq<RecordingItem>)
    requires forall j :: 0 <= j < |items| ==> items[j].id != item.id
    ensures WithoutId([item] + items, item.id) == items
  {
    WithoutIdAppend([item], items, item.id);
    WithoutIdAbsent(items, item.id);
    assert WithoutId([item], item.id) == [] by {
      assert [item][..0] == [];
    }
  }

  class RecordingService {
    /** `Platform.OS` */
    const platform: Platform
    /** Where saved recordings are moved to; empty on the web. */
    const recordingsDirectory: string
    /** The list stored under the key "recordings"; None while the key is
        missing. */
    var stored: Option<seq<RecordingItem>>

    /** The service over a given store; `documentDirectory` is the file
        system's document directory. */
    constructor (platform: Platform, documentDirectory: string, stored: Option<seq<RecordingItem>>)
      ensures this.platform == platform && this.stored == stored
      ensures recordingsDirectory == if platform == Web then "" else documentDirectory + "recordings/"
    {
      this.platform := platform;
      this.recordingsDirectory := if platform == Web then "" else documentDirectory + "recordings/";
      this.stored := stored;
    }

    /** The stored list, empty while the key is missing. */
    function StoredOrEmpty(): seq<RecordingItem>
      reads this
    {
      stored.GetOr([])
    }

    /** `getRecordings`: the stored list; the empty list when the key is
        missing or reading the store fails (`readFails`). */
    method GetRecordings(readFails: bool) returns (items: seq<RecordingItem>)
      ensures readFails || stored.None? ==> items == []
      ensures !readFails && stored.Some? ==> items == stored.value
    {
      if readFails {
        return [];
      }
      match stored
      case None => items := [];
      case Some(list) => items := list;
    }

    /** `saveRecording(recording, duration)`: on the web it throws before
        anything else. Otherwise the recording's file (at `recordingUri`,
        None when the recorder has none; an empty URI counts as none) must
        exist; it is moved into the recordings directory (`moveError` is the
        message when the move throws, which is rethrown with nothing
        written), analysed (`analysis` is None when the analysis threw, which
        does not stop the save), and the new item is put first in the list
        read from the store. A failed read counts as an empty list, so the
        write then replaces whatever was stored. */
    method SaveRecording(recordingUri: Option<string>, fileExists: bool, fileSize: Option<int>,
                         moveError: Option<string>, analysis: Option<AudioAnalysisResponse>,
                         duration: int, clock: Clock, readFails: bool)
      returns (result: Result<RecordingItem, string>)
      modifies this
      ensures platform == Web ==> result == Failure(WebNotSupported)
      ensures platform != Web && UriMissing(recordingUri) ==> result == Failure(UriNotFound)
      ensures platform != Web && !UriMissing(recordingUri) && !fileExists ==> result == Failure(AudioFileNotFound)
      ensures platform != Web && !UriMissing(recordingUri) && fileExists && moveError.Some? ==>
                result == Failure(moveError.value)
      ensures result.Success? <==> platform != Web && !UriMissing(recordingUri) && fileExists && moveError.None?
      ensures result.Failure? ==> stored == old(stored)
      ensures result.Success? ==>
                && result.value == RecordingItem(Decimal.NatToString(clock.idMillis), DisplayName(clock),
                                                 recordingsDirectory + FileName(clock), duration,
                                                 clock.isoTimestamp, fileSize.GetOr(0), analysis)
                && stored == Some([result.value] + (if readFails then [] else old(StoredOrEmpty())))
    {
      if platform == Web {
        return Failure(WebNotSupported);
      }
      if UriMissing(recordingUri) {
        return Failure(UriNotFound);
      }
      if !fileExists {
        return Failure(AudioFileNotFound);
      }
      var newUri := recordingsDirectory + FileName(clock);
      if moveError.Some? {
        return Failure(moveError.value);
      }
      var item := RecordingItem(Decimal.NatToString(clock.idMillis), DisplayName(clock), newUri,
                                duration, clock.isoTimestamp, fileSize.GetOr(0), analysis);
      var recordings := GetRecordings(readFails);
      recordings := [item] + recordings;
      stored := Some(recordings);
      result := Success(item);
    }

    /** The older `saveRecording(uri, duration)`: on the web it throws;
        otherwise the file is moved into the recordings directory and its
        size looked up there (`fileError` is the message when either call
        throws, which is rethrown with nothing written), and the new item,
        with that size (0 when unknown) and no analysis, is put first in the
        list read from the store. */
    method SaveRecordingUri(fileError: Option<string>, sizeAfterMove: Option<int>, duration: int,
                            clock: Clock, readFails: bool)
      returns (result: Result<RecordingItem, string>)
      modifies this
      ensures platform == Web ==> result == Failure(WebNotSupported) && stored == old(stored)
      ensures platform != Web && fileError.Some? ==> result == Failure(fileError.value) && stored == old(stored)
      ensures platform != Web && fileError.None? ==>
                && result == Success(RecordingItem(Decimal.NatToString(clock.idMillis), DisplayName(clock),
                                                   recordingsDirectory + FileName(clock), duration,
                                                   clock.isoTimestamp, sizeAfterMove.GetOr(0), None))
                && stored == Some([result.value] + (if readFails then [] else old(StoredOrEmpty())))
    {
      if platform == Web {
        return Failure(WebNotSupported);
      }
      var newUri := recordingsDirectory + FileName(clock);
      if fileError.Some? {
        return Failure(fileError.value);
      }
      var item := RecordingItem(Decimal.NatToString(clock.idMillis), DisplayName(clock), newUri,
                                duration, clock.isoTimestamp, sizeAfterMove.GetOr(0), None);
      var recordings := GetRecordings(readFails);
      recordings := [item] + recordings;
      stored := Some(recordings);
      result := Success(item);
    }

    /** `deleteRecording(id)`: when some entry read from the store has the
        id, the list without every such entry is written back; otherwise
        nothing is written. */
    method DeleteRecording(id: string, readFails: bool)
      modifies this
      ensures var items := if readFails then [] else old(StoredOrEmpty());
              stored == if FirstIndexOf(items, id) == -1 then old(stored) else Some(WithoutId(items, id))
    {
      var recordings := GetRecordings(readFails);
      if FirstIndexOf(recordings, id) != -1 {
        stored := Some(WithoutId(recordings, id));
      }
    }

    /** `renameRecording(id, newName)`: the first entry read from the store
        that has the id gets the new name, and the list is written back; every
        other entry and every other field stays as it was. With no such entry
        nothing is written. */
    method RenameRecording(id: string, newName: string, readFails: bool)
      modifies this
      ensures var items := if readFails then [] else old(StoredOrEmpty());
              var k := FirstIndexOf(items, id);
              && (k == -1 ==> stored == old(stored))
              && (k != -1 ==>
                    && stored.Some? && |stored.value| == |items|
                    && stored.value[k] == items[k].(name := newName)
                    && forall j :: 0 <= j < |items| && j != k ==> stored.value[j] == items[j])
    {
      var recordings := GetRecordings(readFails);
      var recordingIndex := FirstIndexOf(recordings, id);
      if recordingIndex != -1 {
        recordings := recordings[recordingIndex := recordings[recordingIndex].(name := newName)];
        stored := Some(recordings);
      }
    }
  }
}
