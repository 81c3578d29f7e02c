/**
 * The USB string descriptors of usb_descriptors.c. A String descriptor (section
 * 9.6.7 of the USB 2.0 specification) is a header word, whose low byte is the
 * length in bytes and whose high byte is the STRING descriptor type (3), followed
 * by UTF-16 code units. str8_to_str16 builds one from an 8-bit C string, at most
 * 19 characters of it, in a 20-word buffer; tud_descriptor_string_cb picks the
 * string by index and fills its static buffer, hex-encoding the board id for the
 * serial number.
 */
module UsbDescriptors {
  import opened Wrappers

  /** uint8_t and uint16_t. */
  newtype uint8 = x: int | 0 <= x < 0x100
  newtype uint16 = x: int | 0 <= x < 0x1_0000

  /** TUSB_DESC_STRING */
  const STRING_TYPE: uint16 := 3

  /** DESC_STR_MAX_LENGTH: the words in the descriptor buffer. */
  const MAX_WORDS: nat := 20

  /** The most characters a descriptor carries: one word goes to the header. */
  const MAX_CHARS: nat := MAX_WORDS - 1

  /** USB_DESC_STRLEN: the header word of a descriptor of l characters, the type
    * shifted into the high byte and or-ed with the length 2 (l + 1). That length
    * stays below 256, so the or is a sum and never reaches the type byte. */
  function DescStrLen(l: nat): (w: uint16)
    requires l <= MAX_CHARS
    ensures w / 0x100 == STRING_TYPE
    ensures (w % 0x100) as nat == 2 * (l + 1)
  {
    (STRING_TYPE as int * 0x100 + (l + 1) * 2) as uint16
  }

  // ---------------------------------------------------------------------
  // Encoding a C string

  /** strlen: the bytes before the first NUL; the end of s counts as a NUL. */
  function CLen(s: seq<uint8>): (n: nat)
    ensures n <= |s|
    ensures forall i :: 0 <= i < n ==> s[i] != 0
    ensures n < |s| ==> s[n] == 0
  {
    if s == [] || s[0] == 0 then 0 else 1 + CLen(s[1..])
  }

  function Min(a: nat, b: nat): nat { if a <= b then a else b }

  /** The characters str8_to_str16 copies: the string, cut at 19. */
  function Chars(str: seq<uint8>): (c: seq<uint8>)
    ensures |c| <= MAX_CHARS
  {
    str[..Min(CLen(str), MAX_CHARS)]
  }

  /** Each 8-bit character becomes one code unit (plain char is unsigned on the
    * target, so the byte is zero-extended). */
  function Widen(s: seq<uint8>): (w: seq<uint16>)
    ensures |w| == |s|
  {
    seq(|s|, i requires 0 <= i < |s| => Wide(s[i]))
  }

  /** The low byte of each code unit. */
  function Narrow(w: seq<uint16>): (s: seq<uint8>)
    ensures |s| == |w|
  {
    seq(|w|, i requires 0 <= i < |w| => Low(w[i]))
  }

  /** One character as a code unit. */
  function Wide(b: uint8): uint16 { b as uint16 }

  /** The character in the low byte of a code unit. */
  function Low(w: uint16): uint8 { (w % 0x100) as uint8 }

  /** The descriptor str8_to_str16 leaves in words 0..n of the buffer. */
  function Encoded(str: seq<uint8>): (d: seq<uint16>)
    ensures 1 <= |d| <= MAX_WORDS
  {
    [DescStrLen(|Chars(str)|)] + Widen(Chars(str))
  }

  /** How a host reads a String descriptor back: check the type, take the length
    * from the header and one character from the low byte of each code unit. */
  function Decode(d: seq<uint16>): Option<seq<uint8>>
  {
    if |d| == 0 || d[0] / 0x100 != STRING_TYPE then None
    else
      var len := (d[0] % 0x100) as nat;
      if len < 2 || len % 2 != 0 || len / 2 > |d| then None
      else Some(Narrow(d[1..len / 2]))
  }

  /** A descriptor built by str8_to_str16 reads back as the string, cut at 19
    * characters. */
  lemma EncodedDecodes(str: seq<uint8>)
    ensures Decode(Encoded(str)) == Some(Chars(str))
  {
    var d := Encoded(str);
    var c := Chars(str);
    assert (d[0] % 0x100) as nat == 2 * (|c| + 1);
    assert d[1..|c| + 1] == Widen(c);
    NarrowWiden(c);
  }

  lemma NarrowWiden(s: seq<uint8>)
    ensures Narrow(Widen(s)) == s
  {
    forall i | 0 <= i < |s|
      ensures Narrow(Widen(s))[i] == s[i]
    {
      LowWide(s[i]);
    }
  }

  lemma LowWide(b: uint8)
    ensures Low(Wide(b)) == b
  {
  }

  /** str8_to_str16: copy up to 19 characters into words 1..n, then write the
    * header into word 0. Words after n keep what the buffer held. */
  method Str8ToStr16(str: seq<uint8>, str16: array<uint16>)
    requires str16.Length >= MAX_WORDS
    modifies str16
    ensures str16[..|Encoded(str)|] == Encoded(str)
    ensures str16[|Encoded(str)|..] == old(str16[|Encoded(str)|..])
  {
    var i := 0;
    while i < MAX_CHARS && i < |str| && str[i] != 0
      invariant 0 <= i <= MAX_CHARS && i <= |str|
      invariant forall k :: 0 <= k < i ==> str[k] != 0
      invariant forall k :: 0 <= k < i ==> str16[k + 1] == Wide(str[k])
      invariant forall k :: i + 1 <= k < str16.Length ==> str16[k] == old(str16[k])
      invariant str16[0] == old(str16[0])
    {
      str16[i + 1] := Wide(str[i]);
      i := i + 1;
    }
    str16[0] := DescStrLen(i);
    CopiedAll(str, i);
  }

  /** Where the copy loop stops is the length of Chars. */
  lemma CopiedAll(str: seq<uint8>, i: nat)
    requires i <= MAX_CHARS && i <= |str|
    requires forall k :: 0 <= k < i ==> str[k] != 0
    requires i == MAX_CHARS || i == |str| || str[i] == 0
    ensures Chars(str) == str[..i]
  {
    CLenAtLeast(str, i);
    if i < MAX_CHARS && i < |str| {
      CLenAtMost(str, i);
    }
  }

  lemma {:induction false} CLenAtLeast(s: seq<uint8>, i: nat)
    requires i <= |s| && forall k :: 0 <= k < i ==> s[k] != 0
    ensures CLen(s) >= i
  {
    if i > 0 {
      CLenAtLeast(s[1..], i - 1);
    }
  }

  lemma {:induction false} CLenAtMost(s: seq<uint8>, i: nat)
    requires i < |s| && s[i] == 0
    ensures CLen(s) <= i
  {
    if i > 0 && s[0] != 0 {
      CLenAtMost(s[1..], i - 1);
    }
  }

  // ---------------------------------------------------------------------
  // The serial number

  /** One uppercase hexadecimal digit, as "%X" prints it. */
  function HexDigit(v: uint8): (c: uint8)
    requires v < 16
    ensures IsHexDigit(c)
  {
    if v < 10 then (Code('0') + v as int) as uint8 else (Code('A') + v as int - 10) as uint8
  }

  predicate IsHexDigit(c: uint8)
  {
    (Code('0') <= c as int <= Code('9')) || (Code('A') <= c as int <= Code('F'))
  }

  function HexValue(c: uint8): (v: uint8)
    requires IsHexDigit(c)
    ensures v < 16
  {
    if c as int <= Code('9') then (c as int - Code('0')) as uint8 else (c as int - Code('A') + 10) as uint8
  }

  /** "%02X" of one byte: the high nibble, then the low one. */
  function Hex2(b: uint8): (s: seq<uint8>)
    ensures |s| == 2 && IsHexDigit(s[0]) && IsHexDigit(s[1])
  {
    [HexDigit(b / 16), HexDigit(b % 16)]
  }

  /** The snprintf of the serial-number case: "%02X" for each id byte, in order. */
  function HexSerial(id: seq<uint8>): (s: seq<uint8>)
    ensures |s| == 2 * |id|
    ensures forall i :: 0 <= i < |s| ==> IsHexDigit(s[i])
    decreases |id|
  {
    if id == [] then [] else Hex2(id[0]) + HexSerial(id[1..])
  }

  /** Two digits read back as the byte they print. */
  lemma Hex2RoundTrip(b: uint8)
    ensures Byte2(Hex2(b)[0], Hex2(b)[1]) == b
  {
  }

  /** The byte two hexadecimal digits stand for. */
  function Byte2(hi: uint8, lo: uint8): uint8
    requires IsHexDigit(hi) && IsHexDigit(lo)
  {
    (16 * HexValue(hi) as int + HexValue(lo) as int) as uint8
  }

  /** Reading the digits back two by two. */
  function ParseHex(s: seq<uint8>): seq<uint8>
    requires |s| % 2 == 0 && forall i :: 0 <= i < |s| ==> IsHexDigit(s[i])
    decreases |s|
  {
    if s == [] then [] else [Byte2(s[0], s[1])] + ParseHex(s[2..])
  }

  /** The serial number determines the board id. */
  lemma {:induction false} HexSerialRoundTrip(id: seq<uint8>)
    ensures ParseHex(HexSerial(id)) == id
    decreases |id|
  {
    if id != [] {
      var s := HexSerial(id);
      assert s[2..] == HexSerial(id[1..]);
      HexSerialRoundTrip(id[1..]);
      Hex2RoundTrip(id[0]);
      assert [id[0]] + id[1..] == id;
    }
  }

  /** The 20-byte zeroed buffer after snprintf: the 16 digits, then NULs. */
  function SerialString(id: seq<uint8>): (s: seq<uint8>)
    requires |id| == 8
    ensures |s| == MAX_WORDS
  {
    HexSerial(id) + [0, 0, 0, 0]
  }

  /** The serial number is the 16 digits: its descriptor is 34 bytes long. */
  lemma SerialChars(id: seq<uint8>)
    requires |id| == 8
    ensures Chars(SerialString(id)) == HexSerial(id)
    ensures Encoded(SerialString(id))[0] == 0x0322
  {
    var s := SerialString(id);
    assert forall k :: 0 <= k < 16 ==> s[k] != 0;
    CopiedAll(s, 16);
    assert s[..16] == HexSerial(id);
  }

  // ---------------------------------------------------------------------
  // The strings and the callback

  /** ASCII text as the bytes of a C string literal. */
  function Ascii(text: string): (s: seq<uint8>)
    requires forall i :: 0 <= i < |text| ==> 0 < text[i] as int < 128
    ensures |s| == |text|
    ensures forall i :: 0 <= i < |s| ==> s[i] != 0
  {
    seq(|text|, i requires 0 <= i < |text| => Byte(text[i]))
  }

  function Byte(c: char): uint8
    requires c as int < 128
  {
    c as int as uint8
  }

  /** The ASCII code of a character. */
  function Code(c: char): int { c as int }

  /** Text without NULs is copied whole when it has at most 19 characters. */
  lemma ShortTextWhole(s: seq<uint8>)
    requires |s| <= MAX_CHARS && forall k :: 0 <= k < |s| ==> s[k] != 0
    ensures Chars(s) == s
  {
    CopiedAll(s, |s|);
  }

  const MANUFACTURER := Ascii("AAAFNRAA")
  const PRODUCT := Ascii("Central Scrutinizer")
  const CDC_0_NAME := Ascii("Port-0")
  const CDC_1_NAME := Ascii("Port-1")

  /** USBD_STR_LAST: the number of string indices. */
  const STR_LAST: nat := 6

  /** The words of the descriptor for string index (below 6). */
  function Descriptor(index: nat, id: seq<uint8>): (d: seq<uint16>)
    requires index < STR_LAST && |id| == 8
    ensures 1 <= |d| <= MAX_WORDS
  {
    if index == 0 then [DescStrLen(1), 0x0409]
    else if index == 1 then Encoded(MANUFACTURER)
    else if index == 2 then Encoded(PRODUCT)
    else if index == 3 then Encoded(SerialString(id))
    else if index == 4 then Encoded(CDC_0_NAME)
    else Encoded(CDC_1_NAME)
  }

  /** Index 0: one language, US English. */
  lemma LanguageDescriptor(id: seq<uint8>)
    requires |id| == 8
    ensures Descriptor(0, id) == [0x0304, 0x0409]
  {
  }

  /** The vendor and product names are sent whole: the product name has exactly
    * 19 characters, the most a descriptor here carries. */
  lemma NamesWhole(id: seq<uint8>)
    requires |id| == 8
    ensures |PRODUCT| == MAX_CHARS
    ensures Decode(Descriptor(1, id)) == Some(MANUFACTURER)
    ensures Decode(Descriptor(2, id)) == Some(PRODUCT)
  {
    ShortTextWhole(MANUFACTURER);
    EncodedDecodes(MANUFACTURER);
    ShortTextWhole(PRODUCT);
    EncodedDecodes(PRODUCT);
  }

  /** The two CDC interfaces are named Port-0 and Port-1, in 14-byte descriptors. */
  lemma PortNames(id: seq<uint8>)
    requires |id| == 8
    ensures Descriptor(4, id)[0] == 0x030E && Descriptor(5, id)[0] == 0x030E
    ensures Decode(Descriptor(4, id)) == Some(CDC_0_NAME)
    ensures Decode(Descriptor(5, id)) == Some(CDC_1_NAME)
  {
    ShortTextWhole(CDC_0_NAME);
    EncodedDecodes(CDC_0_NAME);
    ShortTextWhole(CDC_1_NAME);
    EncodedDecodes(CDC_1_NAME);
  }

  /** The serial-number descriptor reads back as the board id in hex. */
  lemma SerialDescriptor(id: seq<uint8>)
    requires |id| == 8
    ensures Descriptor(3, id)[0] == 0x0322
    ensures Decode(Descriptor(3, id)) == Some(HexSerial(id))
    ensures ParseHex(Decode(Descriptor(3, id)).value) == id
  {
    SerialChars(id);
    EncodedDecodes(SerialString(id));
    HexSerialRoundTrip(id);
  }

  class StringTable {
    /** desc_str: the static buffer every call overwrites. */
    const descStr: array<uint16>

    ghost predicate Valid()
      reads this
    {
      descStr.Length == MAX_WORDS
    }

    constructor()
      ensures Valid() && fresh(descStr)
    {
      descStr := new uint16[MAX_WORDS](_ => 0);
    }

    /** tud_descriptor_string_cb: None (NULL) for an index of 6 or more, with the
      * buffer untouched; otherwise the buffer, holding the index's descriptor in
      * its first words and what it held before in the rest. The language id
      * argument is not used. */
    method GetString(index: uint8, boardId: seq<uint8>) returns (r: Option<array<uint16>>)
      requires Valid() && |boardId| == 8
      modifies descStr
      ensures index as nat >= STR_LAST ==> r == None && unchanged(descStr)
      ensures index as nat < STR_LAST ==> r == Some(descStr)
      ensures index as nat < STR_LAST ==>
        var d := Descriptor(index as nat, boardId);
        descStr[..|d|] == d && descStr[|d|..] == old(descStr[|d|..])
    {
      if index as nat >= STR_LAST {
        return None;
      }
      if index == 0 {
        descStr[0] := DescStrLen(1);
        descStr[1] := 0x0409;
      } else if index == 3 {
        Str8ToStr16(SerialString(boardId), descStr);
      } else if index == 1 {
        Str8ToStr16(MANUFACTURER, descStr);
      } else if index == 2 {
        Str8ToStr16(PRODUCT, descStr);
      } else if index == 4 {
        Str8ToStr16(CDC_0_NAME, descStr);
      } else {
        Str8ToStr16(CDC_1_NAME, descStr);
      }
      r := Some(descStr);
    }
  }
}
