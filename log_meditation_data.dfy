/**
 * Logging and reading the meditation log
 * (src/utils/database/meditation_log/log_meditation_data.rs and
 * src/utils/database/meditation_log/read_meditation_data.rs).
 */
module MeditationLog {
  import opened Wrappers
  import opened MeditationDatabase
  import opened DatabaseManager

  /** The key the reader uses. */
  const MeditationLogKey: string := "meditationLog"

  /** The key `log_meditation_data` writes under. */
  const LogWriteKey: string := ""

  /** `read_meditation_data`: the log stored under the reader's key. */
  method ReadMeditationData(store: Store, codec: Codec<MeditationData>) returns (r: seq<MeditationData>)
    ensures store.available ==> r == StoredLog(codec, store.items, MeditationLogKey)
    ensures !store.available ==> r == []
  {
    r := ReadData(store, codec, MeditationLogKey);
  }

  /** The arguments pass every check of `build`. */
  predicate Loggable(datetime: i32, duration: i32, category: string, speaker: string) {
    datetime > 0 && duration > 0 && !IsBlank(category) && !IsBlank(speaker)
  }

  /**
   * `log_meditation_data` as written: build a record from the arguments and,
   * only when that succeeds, write it under the key "".
   */
  method LogMeditationData(store: Store, codec: Codec<MeditationData>,
                           datetime: i32, duration: i32, category: string, speaker: string)
    modifies store`items
    ensures !Loggable(datetime, duration, category, speaker) ==> store.items == old(store.items)
    ensures Loggable(datetime, duration, category, speaker) ==>
      store.items == WriteResult(codec, old(store.items), store.available, store.writable,
                                 MeditationData(datetime, duration, category, speaker), LogWriteKey)
    ensures StoredLog(codec, store.items, MeditationLogKey) == StoredLog(codec, old(store.items), MeditationLogKey)
  {
    var builder := new MeditationDataBuilder();
    builder := builder.SetDatetime(datetime);
    builder := builder.SetDuration(duration);
    builder := builder.SetCategory(category);
    builder := builder.SetSpeaker(speaker);
    var built := builder.Build();
    match built {
      case Success(data) =>
        WriteData(store, codec, data, LogWriteKey);
        WriteTouchesOnlyKey(codec, old(store.items), store.available, store.writable, data, LogWriteKey, MeditationLogKey);
      case Failure(_) =>
    }
  }

  /** A record logged as written never shows up in what the reader returns. */
  lemma LoggedRecordInvisibleToReader(codec: Codec<MeditationData>, items: map<string, string>,
                                      available: bool, writable: bool, data: MeditationData)
    ensures StoredLog(codec, WriteResult(codec, items, available, writable, data, LogWriteKey), MeditationLogKey)
      != StoredLog(codec, items, MeditationLogKey) + [data]
  {
    WriteTouchesOnlyKey(codec, items, available, writable, data, LogWriteKey, MeditationLogKey);
    var before := StoredLog(codec, items, MeditationLogKey);
    assert |before + [data]| == |before| + 1;
  }

  /**
   * `log_meditation_data` writing under the reader's key, as the earlier
   * `read_write_meditation_data.rs` did.
   */
  method LogMeditationDataToLogKey(store: Store, codec: Codec<MeditationData>,
                                   datetime: i32, duration: i32, category: string, speaker: string)
    modifies store`items
    ensures !Loggable(datetime, duration, category, speaker) ==> store.items == old(store.items)
    ensures Loggable(datetime, duration, category, speaker) ==>
      store.items == WriteResult(codec, old(store.items), store.available, store.writable,
                                 MeditationData(datetime, duration, category, speaker), MeditationLogKey)
  {
    var builder := new MeditationDataBuilder();
    builder := builder.SetDatetime(datetime);
    builder := builder.SetDuration(duration);
    builder := builder.SetCategory(category);
    builder := builder.SetSpeaker(speaker);
    var built := builder.Build();
    match built {
      case Success(data) =>
        WriteData(store, codec, data, MeditationLogKey);
      case Failure(_) =>
    }
  }

  /** With the corrected key, a logged record is read back last, the earlier log unchanged before it. */
  method LogThenRead(store: Store, codec: Codec<MeditationData>,
                     datetime: i32, duration: i32, category: string, speaker: string)
    returns (r: seq<MeditationData>)
    requires RoundTrip(codec) && store.available && store.writable
    requires Loggable(datetime, duration, category, speaker)
    requires codec.encode(StoredLog(codec, store.items, MeditationLogKey)
                          + [MeditationData(datetime, duration, category, speaker)]).Some?
    modifies store`items
    ensures r == StoredLog(codec, old(store.items), MeditationLogKey)
                 + [MeditationData(datetime, duration, category, speaker)]
  {
    ReadAfterWrite(codec, store.items, MeditationData(datetime, duration, category, speaker), MeditationLogKey);
    LogMeditationDataToLogKey(store, codec, datetime, duration, category, speaker);
    r := ReadMeditationData(store, codec);
  }
}
