/**
 * The floating hearts background: every 800 ms a heart with a random
 * emoji, position and timing joins the list, which keeps the last fifteen
 * hearts before the new one.
 */
module FloatingHearts {
  import opened Wrappers
  import Js

  datatype Heart = Heart(id: real, x: real, emoji: string, delay: real, duration: real, size: real)

  /** The emojis the hearts are drawn from. */
  function Emojis(): (e: seq<string>)
    ensures |e| == 10
  {
    ["💕", "💖", "✨", "🌸", "💗", "🎀", "⭐", "💫", "🌙", "🦋"]
  }

  /** Every entry is a single emoji character. */
  lemma EmojisAreSingleCharacters()
    ensures forall i :: 0 <= i < |Emojis()| ==> |Emojis()[i]| == 1 && Emojis()[i][0] as int >= 0x2000
  {
  }

  // ---------------------------------------------------------------------------
  // The emoji table as the file spells it
  // ---------------------------------------------------------------------------

  /** `emojis` character for character, as the file stores it. */
  function EmojisAsWritten(): (e: seq<string>)
    ensures |e| == 10
  {
    ["\U{11F}\U{178}\U{2019}\U{2022}",
     "\U{11F}\U{178}\U{2019}\U{2013}",
     "\U{E2}\U{153}\U{A8}",
     "\U{11F}\U{178}\U{152}\U{B8}",
     "\U{11F}\U{178}\U{2019}\U{2014}",
     "\U{11F}\U{178}\U{20AC}",
     "\U{E2}\U{AD}",
     "\U{11F}\U{178}\U{2019}\U{AB}",
     "\U{11F}\U{178}\U{152}\U{2122}",
     "\U{11F}\U{178}\U{A6}\U{2039}"]
  }

  /** The UTF-8 encoding of a character, as byte values. */
  function Utf8(c: char): (bytes: seq<int>)
    ensures 1 <= |bytes| <= 4
    ensures forall i :: 0 <= i < |bytes| ==> 0 <= bytes[i] < 256
  {
    var n := c as int;
    if n < 0x80 then [n]
    else if n < 0x800 then [0xC0 + n / 0x40, 0x80 + n % 0x40]
    else if n < 0x10000 then [0xE0 + n / 0x1000, 0x80 + (n / 0x40) % 0x40, 0x80 + n % 0x40]
    else [0xF0 + n / 0x40000, 0x80 + (n / 0x1000) % 0x40, 0x80 + (n / 0x40) % 0x40, 0x80 + n % 0x40]
  }

  /** The Windows-1254 code points of bytes 0x80 to 0x9F, 0 where the code page leaves a byte undefined. */
  function Cp1254High(): (t: seq<int>)
    ensures |t| == 32
  {
    [0x20AC, 0, 0x201A, 0x0192, 0x201E, 0x2026, 0x2020, 0x2021,
     0x02C6, 0x2030, 0x0160, 0x2039, 0x0152, 0, 0, 0,
     0, 0x2018, 0x2019, 0x201C, 0x201D, 0x2022, 0x2013, 0x2014,
     0x02DC, 0x2122, 0x0161, 0x203A, 0x0153, 0, 0, 0x0178]
  }

  /** The character Windows-1254 (Turkish) reads for byte `b`, if any. */
  function Cp1254(b: int): Option<char>
    requires 0 <= b < 256
  {
    if 0x80 <= b < 0xA0 then
      (if Cp1254High()[b - 0x80] == 0 then None else Some(Cp1254High()[b - 0x80] as char))
    else if b == 0xD0 then Some('\U{11E}')
    else if b == 0xDD then Some('\U{130}')
    else if b == 0xDE then Some('\U{15E}')
    else if b == 0xF0 then Some('\U{11F}')
    else if b == 0xFD then Some('\U{131}')
    else if b == 0xFE then Some('\U{15F}')
    else Some(b as char)
  }

  /** Bytes read as Windows-1254 text, dropping the bytes the code page does not define. */
  function ReadCp1254(bytes: seq<int>): string
    requires forall i :: 0 <= i < |bytes| ==> 0 <= bytes[i] < 256
  {
    if bytes == [] then "" else Reading(bytes[0]) + ReadCp1254(bytes[1..])
  }

  /** The text one byte reads as: its character, or nothing. */
  function Reading(b: int): string
    requires 0 <= b < 256
  {
    match Cp1254(b)
    case Some(c) => [c]
    case None => ""
  }

  /** Three bytes read one after the other. */
  lemma ReadThree(a: int, b: int, c: int)
    requires 0 <= a < 256 && 0 <= b < 256 && 0 <= c < 256
    ensures ReadCp1254([a, b, c]) == Reading(a) + Reading(b) + Reading(c)
  {
    assert [c][1..] == [];
    assert ReadCp1254([c]) == Reading(c);
    assert [b, c][1..] == [c];
    assert ReadCp1254([b, c]) == Reading(b) + Reading(c);
    assert [a, b, c][1..] == [b, c];
  }

  /** Four bytes read one after the other. */
  lemma ReadFour(a: int, b: int, c: int, d: int)
    requires 0 <= a < 256 && 0 <= b < 256 && 0 <= c < 256 && 0 <= d < 256
    ensures ReadCp1254([a, b, c, d]) == Reading(a) + Reading(b) + Reading(c) + Reading(d)
  {
    assert [a, b, c, d][1..] == [b, c, d];
    ReadThree(b, c, d);
  }

  /** A string saved as UTF-8 and read back as Windows-1254. */
  function Misread(s: string): string {
    if s == [] then "" else ReadCp1254(Utf8(s[0])) + Misread(s[1..])
  }

  /** A one-character string is misread as the reading of its own bytes. */
  lemma MisreadOne(c: char)
    ensures Misread([c]) == ReadCp1254(Utf8(c))
  {
    assert [c][1..] == [];
  }

  lemma AsWrittenEntry0()
    ensures EmojisAsWritten()[0] == Misread(Emojis()[0])
  {
    var c := Emojis()[0][0];
    assert Emojis()[0] == [c];
    assert Utf8(c) == [0xF0, 0x9F, 0x92, 0x95];
    MisreadOne(c);
    ReadFour(0xF0, 0x9F, 0x92, 0x95);
    assert Reading(0xF0) == "\U{11F}";
    assert Reading(0x9F) == "\U{178}";
    assert Reading(0x92) == "\U{2019}";
    assert Reading(0x95) == "\U{2022}";
  }

  lemma AsWrittenEntry1()
    ensures EmojisAsWritten()[1] == Misread(Emojis()[1])
  {
    var c := Emojis()[1][0];
    assert Emojis()[1] == [c];
    assert Utf8(c) == [0xF0, 0x9F, 0x92, 0x96];
    MisreadOne(c);
    ReadFour(0xF0, 0x9F, 0x92, 0x96);
    assert Reading(0xF0) == "\U{11F}";
    assert Reading(0x9F) == "\U{178}";
    assert Reading(0x92) == "\U{2019}";
    assert Reading(0x96) == "\U{2013}";
  }

  lemma AsWrittenEntry2()
    ensures EmojisAsWritten()[2] == Misread(Emojis()[2])
  {
    var c := Emojis()[2][0];
    assert Emojis()[2] == [c];
    assert Utf8(c) == [0xE2, 0x9C, 0xA8];
    MisreadOne(c);
    ReadThree(0xE2, 0x9C, 0xA8);
    assert Reading(0xE2) == "\U{E2}";
    assert Reading(0x9C) == "\U{153}";
    assert Reading(0xA8) == "\U{A8}";
  }

  lemma AsWrittenEntry3()
    ensures EmojisAsWritten()[3] == Misread(Emojis()[3])
  {
    var c := Emojis()[3][0];
    assert Emojis()[3] == [c];
    assert Utf8(c) == [0xF0, 0x9F, 0x8C, 0xB8];
    MisreadOne(c);
    ReadFour(0xF0, 0x9F, 0x8C, 0xB8);
    assert Reading(0xF0) == "\U{11F}";
    assert Reading(0x9F) == "\U{178}";
    assert Reading(0x8C) == "\U{152}";
    assert Reading(0xB8) == "\U{B8}";
  }

  lemma AsWrittenEntry4()
    ensures EmojisAsWritten()[4] == Misread(Emojis()[4])
  {
    var c := Emojis()[4][0];
    assert Emojis()[4] == [c];
    assert Utf8(c) == [0xF0, 0x9F, 0x92, 0x97];
    MisreadOne(c);
    ReadFour(0xF0, 0x9F, 0x92, 0x97);
    assert Reading(0xF0) == "\U{11F}";
    assert Reading(0x9F) == "\U{178}";
    assert Reading(0x92) == "\U{2019}";
    assert Reading(0x97) == "\U{2014}";
  }

  lemma AsWrittenEntry5()
    ensures EmojisAsWritten()[5] == Misread(Emojis()[5])
  {
    var c := Emojis()[5][0];
    assert Emojis()[5] == [c];
    assert Utf8(c) == [0xF0, 0x9F, 0x8E, 0x80];
    MisreadOne(c);
    ReadFour(0xF0, 0x9F, 0x8E, 0x80);
    assert Reading(0xF0) == "\U{11F}";
    assert Reading(0x9F) == "\U{178}";
    assert Reading(0x8E) == "";
    assert Reading(0x80) == "\U{20AC}";
  }

  lemma AsWrittenEntry6()
    ensures EmojisAsWritten()[6] == Misread(Emojis()[6])
  {
    var c := Emojis()[6][0];
    assert Emojis()[6] == [c];
    assert Utf8(c) == [0xE2, 0xAD, 0x90];
    MisreadOne(c);
    ReadThree(0xE2, 0xAD, 0x90);
    assert Reading(0xE2) == "\U{E2}";
    assert Reading(0xAD) == "\U{AD}";
    assert Reading(0x90) == "";
  }

  lemma AsWrittenEntry7()
    ensures EmojisAsWritten()[7] == Misread(Emojis()[7])
  {
    var c := Emojis()[7][0];
    assert Emojis()[7] == [c];
    assert Utf8(c) == [0xF0, 0x9F, 0x92, 0xAB];
    MisreadOne(c);
    ReadFour(0xF0, 0x9F, 0x92, 0xAB);
    assert Reading(0xF0) == "\U{11F}";
    assert Reading(0x9F) == "\U{178}";
    assert Reading(0x92) == "\U{2019}";
    assert Reading(0xAB) == "\U{AB}";
  }

  lemma AsWrittenEntry8()
    ensures EmojisAsWritten()[8] == Misread(Emojis()[8])
  {
    var c := Emojis()[8][0];
    assert Emojis()[8] == [c];
    assert Utf8(c) == [0xF0, 0x9F, 0x8C, 0x99];
    MisreadOne(c);
    ReadFour(0xF0, 0x9F, 0x8C, 0x99);
    assert Reading(0xF0) == "\U{11F}";
    assert Reading(0x9F) == "\U{178}";
    assert Reading(0x8C) == "\U{152}";
    assert Reading(0x99) == "\U{2122}";
  }

  lemma AsWrittenEntry9()
    ensures EmojisAsWritten()[9] == Misread(Emojis()[9])
  {
    var c := Emojis()[9][0];
    assert Emojis()[9] == [c];
    assert Utf8(c) == [0xF0, 0x9F, 0xA6, 0x8B];
    MisreadOne(c);
    ReadFour(0xF0, 0x9F, 0xA6, 0x8B);
    assert Reading(0xF0) == "\U{11F}";
    assert Reading(0x9F) == "\U{178}";
    assert Reading(0xA6) == "\U{A6}";
    assert Reading(0x8B) == "\U{2039}";
  }

  /**
   * Each entry of the table as written is the intended emoji saved as UTF-8
   * and read back as Windows-1254, so every heart shows two to four stray
   * characters instead of one emoji.
   */
  lemma AsWrittenIsMisreadEmojis()
    ensures forall i :: 0 <= i < 10 ==> EmojisAsWritten()[i] == Misread(Emojis()[i])
    ensures forall i :: 0 <= i < 10 ==> 2 <= |EmojisAsWritten()[i]| <= 4
  {
    AsWrittenEntry0();
    AsWrittenEntry1();
    AsWrittenEntry2();
    AsWrittenEntry3();
    AsWrittenEntry4();
    AsWrittenEntry5();
    AsWrittenEntry6();
    AsWrittenEntry7();
    AsWrittenEntry8();
    AsWrittenEntry9();
  }

  // ---------------------------------------------------------------------------
  // addHeart
  // ---------------------------------------------------------------------------

  /**
   * The heart `addHeart` builds at time `now` from the emoji table and six
   * draws of `Math.random()`, in the order the source makes them.
   */
  function NewHeart(emojis: seq<string>, now: int, rId: real, rX: real, rEmoji: real, rDelay: real, rDuration: real, rSize: real): (h: Heart)
    requires 0 < |emojis|
    requires 0.0 <= rId < 1.0 && 0.0 <= rX < 1.0 && 0.0 <= rEmoji < 1.0
    requires 0.0 <= rDelay < 1.0 && 0.0 <= rDuration < 1.0 && 0.0 <= rSize < 1.0
    ensures h.emoji in emojis
    ensures 0.0 <= h.x < 100.0 && 0.0 <= h.delay < 2.0
    ensures 8.0 <= h.duration < 14.0 && 16.0 <= h.size < 36.0
  {
    Js.RandomItemInList(emojis, rEmoji);
    Heart(now as real + rId, rX * 100.0, Js.RandomItem(emojis, rEmoji), rDelay * 2.0, 8.0 + rDuration * 6.0, 16.0 + rSize * 20.0)
  }

  /**
   * With the table as the file stores it, a heart is the intended heart of
   * the same draws except that its emoji is shown misread.
   */
  lemma AsWrittenHeartIsMisread(now: int, rId: real, rX: real, rEmoji: real, rDelay: real, rDuration: real, rSize: real)
    requires 0.0 <= rId < 1.0 && 0.0 <= rX < 1.0 && 0.0 <= rEmoji < 1.0
    requires 0.0 <= rDelay < 1.0 && 0.0 <= rDuration < 1.0 && 0.0 <= rSize < 1.0
    ensures var shown := NewHeart(EmojisAsWritten(), now, rId, rX, rEmoji, rDelay, rDuration, rSize);
            var intended := NewHeart(Emojis(), now, rId, rX, rEmoji, rDelay, rDuration, rSize);
            shown == intended.(emoji := Misread(intended.emoji)) && shown.emoji != intended.emoji
  {
    var i := Js.RandomIndex(rEmoji, 10);
    AsWrittenIsMisreadEmojis();
    EmojisAreSingleCharacters();
    assert EmojisAsWritten()[i] == Misread(Emojis()[i]);
    assert |EmojisAsWritten()[i]| >= 2 && |Emojis()[i]| == 1;
  }

  /** The hearts kept before a new one, `prev.slice(-15)`. */
  const HeartsKept: nat := 15

  /** The background: the emoji table it draws from, and the hearts on screen. */
  class FloatingHearts {
    const emojis: seq<string>
    var hearts: seq<Heart>

    predicate Valid()
      reads this
    {
      0 < |emojis| && |hearts| <= HeartsKept + 1
    }

    /** The page as the file stores it draws from `EmojisAsWritten()`; the intended page from `Emojis()`. */
    constructor (table: seq<string>)
      requires 0 < |table|
      ensures Valid() && emojis == table && hearts == []
    {
      emojis := table;
      hearts := [];
    }

    /** `addHeart`, run by the 800 ms interval. */
    method AddHeart(now: int, rId: real, rX: real, rEmoji: real, rDelay: real, rDuration: real, rSize: real)
      requires 0.0 <= rId < 1.0 && 0.0 <= rX < 1.0 && 0.0 <= rEmoji < 1.0
      requires 0.0 <= rDelay < 1.0 && 0.0 <= rDuration < 1.0 && 0.0 <= rSize < 1.0
      requires Valid()
      modifies this
      ensures Valid()
      ensures hearts == Js.TakeLast(old(hearts), HeartsKept) + [NewHeart(emojis, now, rId, rX, rEmoji, rDelay, rDuration, rSize)]
    {
      var heart := NewHeart(emojis, now, rId, rX, rEmoji, rDelay, rDuration, rSize);
      hearts := Js.TakeLast(hearts, HeartsKept) + [heart];
    }
  }

  /**
   * After `addHeart` the list has at most sixteen hearts, the new one last
   * and the kept ones the newest earlier hearts in order; with at most fifteen
   * before, none is dropped.
   */
  lemma AddHeartKeepsNewest(prev: seq<Heart>, heart: Heart)
    ensures var r := Js.TakeLast(prev, HeartsKept) + [heart];
      |r| <= HeartsKept + 1 && r[|r| - 1] == heart && r[..|r| - 1] == prev[|prev| - (|r| - 1)..]
      && (|prev| <= HeartsKept ==> r == prev + [heart] && |r| == |prev| + 1)
  {
    Js.KeepLastThenPush(prev, HeartsKept, heart);
  }
}
