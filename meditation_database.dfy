/**
 * The session record and its validating builder
 * (src/utils/database/meditation_log/meditation_database.rs).
 */
module MeditationDatabase {
  import opened Wrappers

  /** Rust's `i32`: every numeric field of a record has this width. */
  type i32 = x: int | -0x8000_0000 <= x < 0x8000_0000

  /** One meditation session: a Unix timestamp, a duration and two labels. */
  datatype MeditationData = MeditationData(datetime: i32, duration: i32, category: string, speaker: string)

  /**
   * The six ways `build` fails; `Message` gives the string the source returns
   * for each, which starts with the name of the field that failed.
   */
  datatype BuildError =
    | DatetimeNotPositive
    | DurationNotPositive
    | CategoryRequired
    | CategoryBlank
    | SpeakerRequired
    | SpeakerBlank

  function Message(e: BuildError): (m: string)
    ensures e.DatetimeNotPositive? ==> |m| > 8 && m[..8] == "datetime"
    ensures e.DurationNotPositive? ==> |m| > 8 && m[..8] == "duration"
    ensures e.CategoryRequired? || e.CategoryBlank? ==> |m| > 8 && m[..8] == "category"
    ensures e.SpeakerRequired? || e.SpeakerBlank? ==> |m| > 7 && m[..7] == "speaker"
  {
    match e
    case DatetimeNotPositive => "datetime must be non-zero"
    case DurationNotPositive => "duration must be non-zero"
    case CategoryRequired => "category is required"
    case CategoryBlank => "category cannot be empty or whitespace"
    case SpeakerRequired => "speaker is required"
    case SpeakerBlank => "speaker cannot be empty or whitespace"
  }

  /** Each failure has its own message: "required" and "empty or whitespace" are told apart. */
  lemma MessagesDistinct(e1: BuildError, e2: BuildError)
    requires e1 != e2
    ensures Message(e1) != Message(e2)
  {
    var m1, m2 := Message(e1), Message(e2);
    assert |m1| != |m2| || m1[1] != m2[1];
  }

  /** Rust's `char::is_whitespace`: the Unicode White_Space property. */
  predicate IsWhitespace(c: char) {
    ('\U{9}' <= c <= '\U{D}') || c == ' ' || c == '\U{85}' || c == '\U{A0}' || c == '\U{1680}'
    || ('\U{2000}' <= c <= '\U{200A}') || c == '\U{2028}' || c == '\U{2029}' || c == '\U{202F}'
    || c == '\U{205F}' || c == '\U{3000}'
  }

  /** A string made of whitespace only (the empty string included). */
  predicate IsBlank(s: string) {
    forall i :: 0 <= i < |s| ==> IsWhitespace(s[i])
  }

  /** `str::trim_start`: drops the longest all-whitespace prefix. */
  function TrimStart(s: string): (r: string)
    ensures |r| <= |s| && r == s[|s| - |r|..]
    ensures forall i :: 0 <= i < |s| - |r| ==> IsWhitespace(s[i])
    ensures r != [] ==> !IsWhitespace(r[0])
  {
    if |s| > 0 && IsWhitespace(s[0]) then TrimStart(s[1..]) else s
  }

  /** `str::trim_end`: drops the longest all-whitespace suffix. */
  function TrimEnd(s: string): (r: string)
    ensures |r| <= |s| && r == s[..|r|]
    ensures forall i :: |r| <= i < |s| ==> IsWhitespace(s[i])
    ensures r != [] ==> !IsWhitespace(r[|r| - 1])
  {
    if |s| > 0 && IsWhitespace(s[|s| - 1]) then TrimEnd(s[..|s| - 1]) else s
  }

  /** `r` is the slice of `s` at offset `i`, with only whitespace before and after it. */
  predicate SliceBetweenBlanks(s: string, r: string, i: int) {
    0 <= i <= |s| - |r| && r == s[i..i + |r|]
    && (forall k :: 0 <= k < i ==> IsWhitespace(s[k]))
    && (forall k :: i + |r| <= k < |s| ==> IsWhitespace(s[k]))
  }

  /**
   * `str::trim`: the slice of `s` left once the leading and the trailing
   * whitespace are dropped; it neither starts nor ends with whitespace.
   */
  function Trim(s: string): (r: string)
    ensures exists i :: SliceBetweenBlanks(s, r, i)
    ensures r != [] ==> !IsWhitespace(r[0]) && !IsWhitespace(r[|r| - 1])
  {
    var t := TrimStart(s);
    var r := TrimEnd(t);
    var i := |s| - |t|;
    assert t == s[i..];
    assert r == t[..|r|] == s[i..i + |r|];
    TrimEndDropsWhitespace(s, t, r, i);
    assert SliceBetweenBlanks(s, r, i);
    r
  }

  /** What `TrimEnd` drops from the suffix `t == s[i..]` is whitespace in `s`. */
  lemma TrimEndDropsWhitespace(s: string, t: string, r: string, i: int)
    requires 0 <= i <= |s| && t == s[i..] && r == TrimEnd(t)
    ensures forall k :: i + |r| <= k < |s| ==> IsWhitespace(s[k])
  {
    forall k | i + |r| <= k < |s|
      ensures IsWhitespace(s[k])
    {
      assert s[k] == t[k - i];
    }
  }

  /** `s.trim().is_empty()` holds exactly for the blank strings. */
  lemma TrimEmptyIffBlank(s: string)
    ensures Trim(s) == [] <==> IsBlank(s)
  {
    var t := TrimStart(s);
    if t != [] {
      assert !IsWhitespace(t[0]);
      assert s[|s| - |t|] == t[0];
    }
  }

  /**
   * The builder: four optional fields, each overwritten by its setter.
   * Setters return the builder itself so that calls chain.
   */
  class MeditationDataBuilder {
    var datetime: Option<i32>
    var duration: Option<i32>
    var category: Option<string>
    var speaker: Option<string>

    /** `MeditationDataBuilder::new()`: every field unset. */
    constructor ()
      ensures datetime == None && duration == None && category == None && speaker == None
      ensures Build() == Failure(DatetimeNotPositive)
    {
      datetime, duration, category, speaker := None, None, None, None;
    }

    method SetDatetime(v: i32) returns (self: MeditationDataBuilder)
      modifies this
      ensures self == this
      ensures datetime == Some(v)
      ensures duration == old(duration) && category == old(category) && speaker == old(speaker)
    {
      datetime := Some(v);
      self := this;
    }

    method SetDuration(v: i32) returns (self: MeditationDataBuilder)
      modifies this
      ensures self == this
      ensures duration == Some(v)
      ensures datetime == old(datetime) && category == old(category) && speaker == old(speaker)
    {
      duration := Some(v);
      self := this;
    }

    method SetCategory(v: string) returns (self: MeditationDataBuilder)
      modifies this
      ensures self == this
      ensures category == Some(v)
      ensures datetime == old(datetime) && duration == old(duration) && speaker == old(speaker)
    {
      category := Some(v);
      self := this;
    }

    method SetSpeaker(v: string) returns (self: MeditationDataBuilder)
      modifies this
      ensures self == this
      ensures speaker == Some(v)
      ensures datetime == old(datetime) && duration == old(duration) && category == old(category)
    {
      speaker := Some(v);
      self := this;
    }

    predicate DatetimeValid()
      reads this
    {
      datetime.Some? && datetime.value > 0
    }

    predicate DurationValid()
      reads this
    {
      duration.Some? && duration.value > 0
    }

    predicate CategoryValid()
      reads this
    {
      category.Some? && !IsBlank(category.value)
    }

    /**
     * `build(&self)`: checks datetime, duration, category and speaker in that
     * order and reports the first failure; it reads the builder and changes nothing.
     */
    function Build(): (r: Result<MeditationData, BuildError>)
      reads this
      ensures r.Success? <==>
        DatetimeValid() && DurationValid() && CategoryValid() && speaker.Some? && !IsBlank(speaker.value)
      ensures r.Success? ==>
        r.value == MeditationData(datetime.value, duration.value, category.value, speaker.value)
      ensures !DatetimeValid() ==> r == Failure(DatetimeNotPositive)
      ensures DatetimeValid() && !DurationValid() ==> r == Failure(DurationNotPositive)
      ensures DatetimeValid() && DurationValid() && category.None? ==> r == Failure(CategoryRequired)
      ensures DatetimeValid() && DurationValid() && category.Some? && IsBlank(category.value)
        ==> r == Failure(CategoryBlank)
      ensures DatetimeValid() && DurationValid() && CategoryValid() && speaker.None?
        ==> r == Failure(SpeakerRequired)
      ensures DatetimeValid() && DurationValid() && CategoryValid() && speaker.Some? && IsBlank(speaker.value)
        ==> r == Failure(SpeakerBlank)
    {
      if !DatetimeValid() then Failure(DatetimeNotPositive)
      else if !DurationValid() then Failure(DurationNotPositive)
      else if category.None? then Failure(CategoryRequired)
      else if (TrimEmptyIffBlank(category.value); Trim(category.value) == []) then Failure(CategoryBlank)
      else if speaker.None? then Failure(SpeakerRequired)
      else if (TrimEmptyIffBlank(speaker.value); Trim(speaker.value) == []) then Failure(SpeakerBlank)
      else Success(MeditationData(datetime.value, duration.value, category.value, speaker.value))
    }
  }

  /** The chain of the first unit test: a complete record builds, fields unchanged. */
  method BuildCompleteRecord() returns (r: Result<MeditationData, BuildError>)
    ensures r == Success(MeditationData(10, 123, "category", "speaker"))
  {
    var b := new MeditationDataBuilder();
    b := b.SetDatetime(10);
    b := b.SetDuration(123);
    b := b.SetCategory("category");
    b := b.SetSpeaker("speaker");
    assert !IsWhitespace("category"[0]) && !IsWhitespace("speaker"[0]);
    r := b.Build();
  }

  /** The chain of the second unit test: a category of one space is refused. */
  method BuildWhitespaceCategory() returns (r: Result<MeditationData, BuildError>)
    ensures r == Failure(CategoryBlank)
  {
    var b := new MeditationDataBuilder();
    b := b.SetDatetime(10);
    b := b.SetDuration(1);
    b := b.SetCategory(" ");
    b := b.SetSpeaker("speaker");
    assert IsBlank(" ");
    r := b.Build();
  }

  /** A negative timestamp fails with the "non-zero" message even though it is non-zero. */
  method BuildNegativeDatetime(duration: i32, category: string, speaker: string)
    returns (r: Result<MeditationData, BuildError>)
    ensures r == Failure(DatetimeNotPositive)
    ensures Message(r.error) == "datetime must be non-zero"
  {
    var b := new MeditationDataBuilder();
    b := b.SetDatetime(-1);
    b := b.SetDuration(duration);
    b := b.SetCategory(category);
    b := b.SetSpeaker(speaker);
    r := b.Build();
  }
}
