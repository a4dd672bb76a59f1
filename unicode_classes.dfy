/** The character classes of the author-name pattern, each a predicate over code
    points backed by the range table the pattern's source spells out
    (work.py:176-187). */
module UnicodeClasses {

  /** A table of closed code-point intervals lo..hi, in the order the character class
      lists them. */
  datatype RangeList = End | Span(lo: int, hi: int, rest: RangeList)

  /** Membership in the ranges of a table, scanning them in order. */
  function InRanges(c: int, t: RangeList): bool {
    t.Span? && ((t.lo <= c <= t.hi) || InRanges(c, t.rest))
  }

  /** The intervals a table lists. */
  ghost function Intervals(t: RangeList): set<(int, int)> {
    if t.End? then {} else {(t.lo, t.hi)} + Intervals(t.rest)
  }

  /** The scan finds a code point exactly when one of the intervals of the table holds it. */
  lemma {:induction false} InRangesSpec(c: int, t: RangeList)
    ensures InRanges(c, t) <==> exists r :: r in Intervals(t) && r.0 <= c <= r.1
  {
    if t.Span? {
      InRangesSpec(c, t.rest);
      assert (t.lo, t.hi) in Intervals(t);
    }
  }

  predicate IsUppercase(c: char) {
    InRanges(c as int, UppercaseRanges)
  }

  predicate IsLowercase(c: char) {
    InRanges(c as int, LowercaseRanges)
  }

  /** _RE_LETTER: [A-Za-z] followed by both tables without their leading ASCII range (work.py:179). */
  predicate IsLetter(c: char) {
    ('A' <= c <= 'Z') || ('a' <= c <= 'z') || InRanges(c as int, UppercaseRanges.rest)
    || InRanges(c as int, LowercaseRanges.rest)
  }

  /** _RE_MODIFIER: general category Sk. */
  predicate IsModifierSymbol(c: char) {
    InRanges(c as int, ModifierRanges)
  }

  /** _RE_DASH: general category Pd. */
  predicate IsDash(c: char) {
    InRanges(c as int, DashRanges)
  }

  /** _RE_SPACE: general category Zs. */
  predicate IsSpaceSeparator(c: char) {
    InRanges(c as int, SpaceRanges)
  }

  /** _RE_NAME_COMPONENT: a letter, a modifier symbol, '.', or a dash (work.py:287). */
  predicate IsNameComponent(c: char) {
    IsLetter(c) || IsModifierSymbol(c) || c == '.' || IsDash(c)
  }

  /** The Zs spaces, spelled out: the ASCII space, the no-break space, U+2000..U+200A,
      and the three narrow, mathematical and ideographic spaces. */
  lemma SpaceSeparatorSpec(c: char)
    ensures IsSpaceSeparator(c) <==> var n := c as int;
      n == 0x20 || n == 0xA0 || 0x2000 <= n <= 0x200A || n == 0x202F || n == 0x205F || n == 0x3000
  {
    InRangesSpec(c as int, SpaceRanges);
    assert Intervals(SpaceRanges) == {(0x20, 0x20), (0xA0, 0xA0), (0x2000, 0x200A), (0x202F, 0x202F),
                                      (0x205F, 0x205F), (0x3000, 0x3000)};
  }

  /** The character class of _RE_UPPERCASE (Unicode property Uppercase), work.py:176. */
  const UppercaseRanges: RangeList :=
    Span(0x41, 0x5A, Span(0xC0, 0xD6, Span(0xD8, 0xDE,
    Span(0x100, 0x100, Span(0x102, 0x102, Span(0x104, 0x104,
    Span(0x106, 0x106, Span(0x108, 0x108, Span(0x10A, 0x10A,
    Span(0x10C, 0x10C, Span(0x10E, 0x10E, Span(0x110, 0x110,
    Span(0x112, 0x112, Span(0x114, 0x114, Span(0x116, 0x116,
    Span(0x118, 0x118, Span(0x11A, 0x11A, Span(0x11C, 0x11C,
    Span(0x11E, 0x11E, Span(0x120, 0x120, Span(0x122, 0x122,
    Span(0x124, 0x124, Span(0x126, 0x126, Span(0x128, 0x128,
    Span(0x12A, 0x12A, Span(0x12C, 0x12C, Span(0x12E, 0x12E,
    Span(0x130, 0x130, Span(0x132, 0x132, Span(0x134, 0x134,
    Span(0x136, 0x136, Span(0x139, 0x139, Span(0x13B, 0x13B,
    Span(0x13D, 0x13D, Span(0x13F, 0x13F, Span(0x141, 0x141,
    Span(0x143, 0x143, Span(0x145, 0x145, Span(0x147, 0x147,
    Span(0x14A, 0x14A, Span(0x14C, 0x14C, Span(0x14E, 0x14E,
    Span(0x150, 0x150, Span(0x152, 0x152, Span(0x154, 0x154,
    Span(0x156, 0x156, Span(0x158, 0x158, Span(0x15A, 0x15A,
    Span(0x15C, 0x15C, Span(0x15E, 0x15E, Span(0x160, 0x160,
    Span(0x162, 0x162, Span(0x164, 0x164, Span(0x166, 0x166,
    Span(0x168, 0x168, Span(0x16A, 0x16A, Span(0x16C, 0x16C,
    Span(0x16E, 0x16E, Span(0x170, 0x170, Span(0x172, 0x172,
    Span(0x174, 0x174, Span(0x176, 0x176, Span(0x178, 0x178,
    Span(0x179, 0x179, Span(0x17B, 0x17B, Span(0x17D, 0x17D,
    Span(0x181, 0x181, Span(0x182, 0x182, Span(0x184, 0x184,
    Span(0x186, 0x186, Span(0x187, 0x187, Span(0x189, 0x18B,
    Span(0x18E, 0x191, Span(0x193, 0x193, Span(0x194, 0x194,
    Span(0x196, 0x198, Span(0x19C, 0x19C, Span(0x19D, 0x19D,
    Span(0x19F, 0x19F, Span(0x1A0, 0x1A0, Span(0x1A2, 0x1A2,
    Span(0x1A4, 0x1A4, Span(0x1A6, 0x1A6, Span(0x1A7, 0x1A7,
    Span(0x1A9, 0x1A9, Span(0x1AC, 0x1AC, Span(0x1AE, 0x1AE,
    Span(0x1AF, 0x1AF, Span(0x1B1, 0x1B3, Span(0x1B5, 0x1B5,
    Span(0x1B7, 0x1B7, Span(0x1B8, 0x1B8, Span(0x1BC, 0x1BC,
    Span(0x1C4, 0x1C4, Span(0x1C7, 0x1C7, Span(0x1CA, 0x1CA,
    Span(0x1CD, 0x1CD, Span(0x1CF, 0x1CF, Span(0x1D1, 0x1D1,
    Span(0x1D3, 0x1D3, Span(0x1D5, 0x1D5, Span(0x1D7, 0x1D7,
    Span(0x1D9, 0x1D9, Span(0x1DB, 0x1DB, Span(0x1DE, 0x1DE,
    Span(0x1E0, 0x1E0, Span(0x1E2, 0x1E2, Span(0x1E4, 0x1E4,
    Span(0x1E6, 0x1E6, Span(0x1E8, 0x1E8, Span(0x1EA, 0x1EA,
    Span(0x1EC, 0x1EC, Span(0x1EE, 0x1EE, Span(0x1F1, 0x1F1,
    Span(0x1F4, 0x1F4, Span(0x1F6, 0x1F8, Span(0x1FA, 0x1FA,
    Span(0x1FC, 0x1FC, Span(0x1FE, 0x1FE, Span(0x200, 0x200,
    Span(0x202, 0x202, Span(0x204, 0x204, Span(0x206, 0x206,
    Span(0x208, 0x208, Span(0x20A, 0x20A, Span(0x20C, 0x20C,
    Span(0x20E, 0x20E, Span(0x210, 0x210, Span(0x212, 0x212,
    Span(0x214, 0x214, Span(0x216, 0x216, Span(0x218, 0x218,
    Span(0x21A, 0x21A, Span(0x21C, 0x21C, Span(0x21E, 0x21E,
    Span(0x220, 0x220, Span(0x222, 0x222, Span(0x224, 0x224,
    Span(0x226, 0x226, Span(0x228, 0x228, Span(0x22A, 0x22A,
    Span(0x22C, 0x22C, Span(0x22E, 0x22E, Span(0x230, 0x230,
    Span(0x232, 0x232, Span(0x23A, 0x23A, Span(0x23B, 0x23B,
    Span(0x23D, 0x23D, Span(0x23E, 0x23E, Span(0x241, 0x241,
    Span(0x243, 0x246, Span(0x248, 0x248, Span(0x24A, 0x24A,
    Span(0x24C, 0x24C, Span(0x24E, 0x24E, Span(0x370, 0x370,
    Span(0x372, 0x372, Span(0x376, 0x376, Span(0x37F, 0x37F,
    Span(0x386, 0x386, Span(0x388, 0x38A, Span(0x38C, 0x38C,
    Span(0x38E, 0x38E, Span(0x38F, 0x38F, Span(0x391, 0x3A1,
    Span(0x3A3, 0x3AB, Span(0x3CF, 0x3CF, Span(0x3D2, 0x3D4,
    Span(0x3D8, 0x3D8, Span(0x3DA, 0x3DA, Span(0x3DC, 0x3DC,
    Span(0x3DE, 0x3DE, Span(0x3E0, 0x3E0, Span(0x3E2, 0x3E2,
    Span(0x3E4, 0x3E4, Span(0x3E6, 0x3E6, Span(0x3E8, 0x3E8,
    Span(0x3EA, 0x3EA, Span(0x3EC, 0x3EC, Span(0x3EE, 0x3EE,
    Span(0x3F4, 0x3F4, Span(0x3F7, 0x3F7, Span(0x3F9, 0x3F9,
    Span(0x3FA, 0x3FA, Span(0x3FD, 0x42F, Span(0x460, 0x460,
    Span(0x462, 0x462, Span(0x464, 0x464, Span(0x466, 0x466,
    Span(0x468, 0x468, Span(0x46A, 0x46A, Span(0x46C, 0x46C,
    Span(0x46E, 0x46E, Span(0x470, 0x470, Span(0x472, 0x472,
    Span(0x474, 0x474, Span(0x476, 0x476, Span(0x478, 0x478,
    Span(0x47A, 0x47A, Span(0x47C, 0x47C, Span(0x47E, 0x47E,
    Span(0x480, 0x480, Span(0x48A, 0x48A, Span(0x48C, 0x48C,
    Span(0x48E, 0x48E, Span(0x490, 0x490, Span(0x492, 0x492,
    Span(0x494, 0x494, Span(0x496, 0x496, Span(0x498, 0x498,
    Span(0x49A, 0x49A, Span(0x49C, 0x49C, Span(0x49E, 0x49E,
    Span(0x4A0, 0x4A0, Span(0x4A2, 0x4A2, Span(0x4A4, 0x4A4,
    Span(0x4A6, 0x4A6, Span(0x4A8, 0x4A8, Span(0x4AA, 0x4AA,
    Span(0x4AC, 0x4AC, Span(0x4AE, 0x4AE, Span(0x4B0, 0x4B0,
    Span(0x4B2, 0x4B2, Span(0x4B4, 0x4B4, Span(0x4B6, 0x4B6,
    Span(0x4B8, 0x4B8, Span(0x4BA, 0x4BA, Span(0x4BC, 0x4BC,
    Span(0x4BE, 0x4BE, Span(0x4C0, 0x4C0, Span(0x4C1, 0x4C1,
    Span(0x4C3, 0x4C3, Span(0x4C5, 0x4C5, Span(0x4C7, 0x4C7,
    Span(0x4C9, 0x4C9, Span(0x4CB, 0x4CB, Span(0x4CD, 0x4CD,
    Span(0x4D0, 0x4D0, Span(0x4D2, 0x4D2, Span(0x4D4, 0x4D4,
    Span(0x4D6, 0x4D6, Span(0x4D8, 0x4D8, Span(0x4DA, 0x4DA,
    Span(0x4DC, 0x4DC, Span(0x4DE, 0x4DE, Span(0x4E0, 0x4E0,
    Span(0x4E2, 0x4E2, Span(0x4E4, 0x4E4, Span(0x4E6, 0x4E6,
    Span(0x4E8, 0x4E8, Span(0x4EA, 0x4EA, Span(0x4EC, 0x4EC,
    Span(0x4EE, 0x4EE, Span(0x4F0, 0x4F0, Span(0x4F2, 0x4F2,
    Span(0x4F4, 0x4F4, Span(0x4F6, 0x4F6, Span(0x4F8, 0x4F8,
    Span(0x4FA, 0x4FA, Span(0x4FC, 0x4FC, Span(0x4FE, 0x4FE,
    Span(0x500, 0x500, Span(0x502, 0x502, Span(0x504, 0x504,
    Span(0x506, 0x506, Span(0x508, 0x508, Span(0x50A, 0x50A,
    Span(0x50C, 0x50C, Span(0x50E, 0x50E, Span(0x510, 0x510,
    Span(0x512, 0x512, Span(0x514, 0x514, Span(0x516, 0x516,
    Span(0x518, 0x518, Span(0x51A, 0x51A, Span(0x51C, 0x51C,
    Span(0x51E, 0x51E, Span(0x520, 0x520, Span(0x522, 0x522,
    Span(0x524, 0x524, Span(0x526, 0x526, Span(0x528, 0x528,
    Span(0x52A, 0x52A, Span(0x52C, 0x52C, Span(0x52E, 0x52E,
    Span(0x531, 0x556, Span(0x10A0, 0x10C5, Span(0x10C7, 0x10C7,
    Span(0x10CD, 0x10CD, Span(0x13A0, 0x13F5, Span(0x1C90, 0x1CBA,
    Span(0x1CBD, 0x1CBF, Span(0x1E00, 0x1E00, Span(0x1E02, 0x1E02,
    Span(0x1E04, 0x1E04, Span(0x1E06, 0x1E06, Span(0x1E08, 0x1E08,
    Span(0x1E0A, 0x1E0A, Span(0x1E0C, 0x1E0C, Span(0x1E0E, 0x1E0E,
    Span(0x1E10, 0x1E10, Span(0x1E12, 0x1E12, Span(0x1E14, 0x1E14,
    Span(0x1E16, 0x1E16, Span(0x1E18, 0x1E18, Span(0x1E1A, 0x1E1A,
    Span(0x1E1C, 0x1E1C, Span(0x1E1E, 0x1E1E, Span(0x1E20, 0x1E20,
    Span(0x1E22, 0x1E22, Span(0x1E24, 0x1E24, Span(0x1E26, 0x1E26,
    Span(0x1E28, 0x1E28, Span(0x1E2A, 0x1E2A, Span(0x1E2C, 0x1E2C,
    Span(0x1E2E, 0x1E2E, Span(0x1E30, 0x1E30, Span(0x1E32, 0x1E32,
    Span(0x1E34, 0x1E34, Span(0x1E36, 0x1E36, Span(0x1E38, 0x1E38,
    Span(0x1E3A, 0x1E3A, Span(0x1E3C, 0x1E3C, Span(0x1E3E, 0x1E3E,
    Span(0x1E40, 0x1E40, Span(0x1E42, 0x1E42, Span(0x1E44, 0x1E44,
    Span(0x1E46, 0x1E46, Span(0x1E48, 0x1E48, Span(0x1E4A, 0x1E4A,
    Span(0x1E4C, 0x1E4C, Span(0x1E4E, 0x1E4E, Span(0x1E50, 0x1E50,
    Span(0x1E52, 0x1E52, Span(0x1E54, 0x1E54, Span(0x1E56, 0x1E56,
    Span(0x1E58, 0x1E58, Span(0x1E5A, 0x1E5A, Span(0x1E5C, 0x1E5C,
    Span(0x1E5E, 0x1E5E, Span(0x1E60, 0x1E60, Span(0x1E62, 0x1E62,
    Span(0x1E64, 0x1E64, Span(0x1E66, 0x1E66, Span(0x1E68, 0x1E68,
    Span(0x1E6A, 0x1E6A, Span(0x1E6C, 0x1E6C, Span(0x1E6E, 0x1E6E,
    Span(0x1E70, 0x1E70, Span(0x1E72, 0x1E72, Span(0x1E74, 0x1E74,
    Span(0x1E76, 0x1E76, Span(0x1E78, 0x1E78, Span(0x1E7A, 0x1E7A,
    Span(0x1E7C, 0x1E7C, Span(0x1E7E, 0x1E7E, Span(0x1E80, 0x1E80,
    Span(0x1E82, 0x1E82, Span(0x1E84, 0x1E84, Span(0x1E86, 0x1E86,
    Span(0x1E88, 0x1E88, Span(0x1E8A, 0x1E8A, Span(0x1E8C, 0x1E8C,
    Span(0x1E8E, 0x1E8E, Span(0x1E90, 0x1E90, Span(0x1E92, 0x1E92,
    Span(0x1E94, 0x1E94, Span(0x1E9E, 0x1E9E, Span(0x1EA0, 0x1EA0,
    Span(0x1EA2, 0x1EA2, Span(0x1EA4, 0x1EA4, Span(0x1EA6, 0x1EA6,
    Span(0x1EA8, 0x1EA8, Span(0x1EAA, 0x1EAA, Span(0x1EAC, 0x1EAC,
    Span(0x1EAE, 0x1EAE, Span(0x1EB0, 0x1EB0, Span(0x1EB2, 0x1EB2,
    Span(0x1EB4, 0x1EB4, Span(0x1EB6, 0x1EB6, Span(0x1EB8, 0x1EB8,
    Span(0x1EBA, 0x1EBA, Span(0x1EBC, 0x1EBC, Span(0x1EBE, 0x1EBE,
    Span(0x1EC0, 0x1EC0, Span(0x1EC2, 0x1EC2, Span(0x1EC4, 0x1EC4,
    Span(0x1EC6, 0x1EC6, Span(0x1EC8, 0x1EC8, Span(0x1ECA, 0x1ECA,
    Span(0x1ECC, 0x1ECC, Span(0x1ECE, 0x1ECE, Span(0x1ED0, 0x1ED0,
    Span(0x1ED2, 0x1ED2, Span(0x1ED4, 0x1ED4, Span(0x1ED6, 0x1ED6,
    Span(0x1ED8, 0x1ED8, Span(0x1EDA, 0x1EDA, Span(0x1EDC, 0x1EDC,
    Span(0x1EDE, 0x1EDE, Span(0x1EE0, 0x1EE0, Span(0x1EE2, 0x1EE2,
    Span(0x1EE4, 0x1EE4, Span(0x1EE6, 0x1EE6, Span(0x1EE8, 0x1EE8,
    Span(0x1EEA, 0x1EEA, Span(0x1EEC, 0x1EEC, Span(0x1EEE, 0x1EEE,
    Span(0x1EF0, 0x1EF0, Span(0x1EF2, 0x1EF2, Span(0x1EF4, 0x1EF4,
    Span(0x1EF6, 0x1EF6, Span(0x1EF8, 0x1EF8, Span(0x1EFA, 0x1EFA,
    Span(0x1EFC, 0x1EFC, Span(0x1EFE, 0x1EFE, Span(0x1F08, 0x1F0F,
    Span(0x1F18, 0x1F1D, Span(0x1F28, 0x1F2F, Span(0x1F38, 0x1F3F,
    Span(0x1F48, 0x1F4D, Span(0x1F59, 0x1F59, Span(0x1F5B, 0x1F5B,
    Span(0x1F5D, 0x1F5D, Span(0x1F5F, 0x1F5F, Span(0x1F68, 0x1F6F,
    Span(0x1FB8, 0x1FBB, Span(0x1FC8, 0x1FCB, Span(0x1FD8, 0x1FDB,
    Span(0x1FE8, 0x1FEC, Span(0x1FF8, 0x1FFB, Span(0x2102, 0x2102,
    Span(0x2107, 0x2107, Span(0x210B, 0x210D, Span(0x2110, 0x2112,
    Span(0x2115, 0x2115, Span(0x2119, 0x211D, Span(0x2124, 0x2124,
    Span(0x2126, 0x2126, Span(0x2128, 0x2128, Span(0x212A, 0x212D,
    Span(0x2130, 0x2133, Span(0x213E, 0x213E, Span(0x213F, 0x213F,
    Span(0x2145, 0x2145, Span(0x2160, 0x216F, Span(0x2183, 0x2183,
    Span(0x24B6, 0x24CF, Span(0x2C00, 0x2C2F, Span(0x2C60, 0x2C60,
    Span(0x2C62, 0x2C64, Span(0x2C67, 0x2C67, Span(0x2C69, 0x2C69,
    Span(0x2C6B, 0x2C6B, Span(0x2C6D, 0x2C70, Span(0x2C72, 0x2C72,
    Span(0x2C75, 0x2C75, Span(0x2C7E, 0x2C80, Span(0x2C82, 0x2C82,
    Span(0x2C84, 0x2C84, Span(0x2C86, 0x2C86, Span(0x2C88, 0x2C88,
    Span(0x2C8A, 0x2C8A, Span(0x2C8C, 0x2C8C, Span(0x2C8E, 0x2C8E,
    Span(0x2C90, 0x2C90, Span(0x2C92, 0x2C92, Span(0x2C94, 0x2C94,
    Span(0x2C96, 0x2C96, Span(0x2C98, 0x2C98, Span(0x2C9A, 0x2C9A,
    Span(0x2C9C, 0x2C9C, Span(0x2C9E, 0x2C9E, Span(0x2CA0, 0x2CA0,
    Span(0x2CA2, 0x2CA2, Span(0x2CA4, 0x2CA4, Span(0x2CA6, 0x2CA6,
    Span(0x2CA8, 0x2CA8, Span(0x2CAA, 0x2CAA, Span(0x2CAC, 0x2CAC,
    Span(0x2CAE, 0x2CAE, Span(0x2CB0, 0x2CB0, Span(0x2CB2, 0x2CB2,
    Span(0x2CB4, 0x2CB4, Span(0x2CB6, 0x2CB6, Span(0x2CB8, 0x2CB8,
    Span(0x2CBA, 0x2CBA, Span(0x2CBC, 0x2CBC, Span(0x2CBE, 0x2CBE,
    Span(0x2CC0, 0x2CC0, Span(0x2CC2, 0x2CC2, Span(0x2CC4, 0x2CC4,
    Span(0x2CC6, 0x2CC6, Span(0x2CC8, 0x2CC8, Span(0x2CCA, 0x2CCA,
    Span(0x2CCC, 0x2CCC, Span(0x2CCE, 0x2CCE, Span(0x2CD0, 0x2CD0,
    Span(0x2CD2, 0x2CD2, Span(0x2CD4, 0x2CD4, Span(0x2CD6, 0x2CD6,
    Span(0x2CD8, 0x2CD8, Span(0x2CDA, 0x2CDA, Span(0x2CDC, 0x2CDC,
    Span(0x2CDE, 0x2CDE, Span(0x2CE0, 0x2CE0, Span(0x2CE2, 0x2CE2,
    Span(0x2CEB, 0x2CEB, Span(0x2CED, 0x2CED, Span(0x2CF2, 0x2CF2,
    Span(0xA640, 0xA640, Span(0xA642, 0xA642, Span(0xA644, 0xA644,
    Span(0xA646, 0xA646, Span(0xA648, 0xA648, Span(0xA64A, 0xA64A,
    Span(0xA64C, 0xA64C, Span(0xA64E, 0xA64E, Span(0xA650, 0xA650,
    Span(0xA652, 0xA652, Span(0xA654, 0xA654, Span(0xA656, 0xA656,
    Span(0xA658, 0xA658, Span(0xA65A, 0xA65A, Span(0xA65C, 0xA65C,
    Span(0xA65E, 0xA65E, Span(0xA660, 0xA660, Span(0xA662, 0xA662,
    Span(0xA664, 0xA664, Span(0xA666, 0xA666, Span(0xA668, 0xA668,
    Span(0xA66A, 0xA66A, Span(0xA66C, 0xA66C, Span(0xA680, 0xA680,
    Span(0xA682, 0xA682, Span(0xA684, 0xA684, Span(0xA686, 0xA686,
    Span(0xA688, 0xA688, Span(0xA68A, 0xA68A, Span(0xA68C, 0xA68C,
    Span(0xA68E, 0xA68E, Span(0xA690, 0xA690, Span(0xA692, 0xA692,
    Span(0xA694, 0xA694, Span(0xA696, 0xA696, Span(0xA698, 0xA698,
    Span(0xA69A, 0xA69A, Span(0xA722, 0xA722, Span(0xA724, 0xA724,
    Span(0xA726, 0xA726, Span(0xA728, 0xA728, Span(0xA72A, 0xA72A,
    Span(0xA72C, 0xA72C, Span(0xA72E, 0xA72E, Span(0xA732, 0xA732,
    Span(0xA734, 0xA734, Span(0xA736, 0xA736, Span(0xA738, 0xA738,
    Span(0xA73A, 0xA73A, Span(0xA73C, 0xA73C, Span(0xA73E, 0xA73E,
    Span(0xA740, 0xA740, Span(0xA742, 0xA742, Span(0xA744, 0xA744,
    Span(0xA746, 0xA746, Span(0xA748, 0xA748, Span(0xA74A, 0xA74A,
    Span(0xA74C, 0xA74C, Span(0xA74E, 0xA74E, Span(0xA750, 0xA750,
    Span(0xA752, 0xA752, Span(0xA754, 0xA754, Span(0xA756, 0xA756,
    Span(0xA758, 0xA758, Span(0xA75A, 0xA75A, Span(0xA75C, 0xA75C,
    Span(0xA75E, 0xA75E, Span(0xA760, 0xA760, Span(0xA762, 0xA762,
    Span(0xA764, 0xA764, Span(0xA766, 0xA766, Span(0xA768, 0xA768,
    Span(0xA76A, 0xA76A, Span(0xA76C, 0xA76C, Span(0xA76E, 0xA76E,
    Span(0xA779, 0xA779, Span(0xA77B, 0xA77B, Span(0xA77D, 0xA77D,
    Span(0xA77E, 0xA77E, Span(0xA780, 0xA780, Span(0xA782, 0xA782,
    Span(0xA784, 0xA784, Span(0xA786, 0xA786, Span(0xA78B, 0xA78B,
    Span(0xA78D, 0xA78D, Span(0xA790, 0xA790, Span(0xA792, 0xA792,
    Span(0xA796, 0xA796, Span(0xA798, 0xA798, Span(0xA79A, 0xA79A,
    Span(0xA79C, 0xA79C, Span(0xA79E, 0xA79E, Span(0xA7A0, 0xA7A0,
    Span(0xA7A2, 0xA7A2, Span(0xA7A4, 0xA7A4, Span(0xA7A6, 0xA7A6,
    Span(0xA7A8, 0xA7A8, Span(0xA7AA, 0xA7AE, Span(0xA7B0, 0xA7B4,
    Span(0xA7B6, 0xA7B6, Span(0xA7B8, 0xA7B8, Span(0xA7BA, 0xA7BA,
    Span(0xA7BC, 0xA7BC, Span(0xA7BE, 0xA7BE, Span(0xA7C0, 0xA7C0,
    Span(0xA7C2, 0xA7C2, Span(0xA7C4, 0xA7C7, Span(0xA7C9, 0xA7C9,
    Span(0xA7D0, 0xA7D0, Span(0xA7D6, 0xA7D6, Span(0xA7D8, 0xA7D8,
    Span(0xA7F5, 0xA7F5, Span(0xFF21, 0xFF3A, Span(0x10400, 0x10427,
    Span(0x104B0, 0x104D3, Span(0x10570, 0x1057A, Span(0x1057C, 0x1058A,
    Span(0x1058C, 0x10592, Span(0x10594, 0x10594, Span(0x10595, 0x10595,
    Span(0x10C80, 0x10CB2, Span(0x118A0, 0x118BF, Span(0x16E40, 0x16E5F,
    Span(0x1D400, 0x1D419, Span(0x1D434, 0x1D44D, Span(0x1D468, 0x1D481,
    Span(0x1D49C, 0x1D49C, Span(0x1D49E, 0x1D49E, Span(0x1D49F, 0x1D49F,
    Span(0x1D4A2, 0x1D4A2, Span(0x1D4A5, 0x1D4A5, Span(0x1D4A6, 0x1D4A6,
    Span(0x1D4A9, 0x1D4AC, Span(0x1D4AE, 0x1D4B5, Span(0x1D4D0, 0x1D4E9,
    Span(0x1D504, 0x1D504, Span(0x1D505, 0x1D505, Span(0x1D507, 0x1D50A,
    Span(0x1D50D, 0x1D514, Span(0x1D516, 0x1D51C, Span(0x1D538, 0x1D538,
    Span(0x1D539, 0x1D539, Span(0x1D53B, 0x1D53E, Span(0x1D540, 0x1D544,
    Span(0x1D546, 0x1D546, Span(0x1D54A, 0x1D550, Span(0x1D56C, 0x1D585,
    Span(0x1D5A0, 0x1D5B9, Span(0x1D5D4, 0x1D5ED, Span(0x1D608, 0x1D621,
    Span(0x1D63C, 0x1D655, Span(0x1D670, 0x1D689, Span(0x1D6A8, 0x1D6C0,
    Span(0x1D6E2, 0x1D6FA, Span(0x1D71C, 0x1D734, Span(0x1D756, 0x1D76E,
    Span(0x1D790, 0x1D7A8, Span(0x1D7CA, 0x1D7CA, Span(0x1E900, 0x1E921,
    Span(0x1F130, 0x1F149, Span(0x1F150, 0x1F169, Span(0x1F170, 0x1F189, End))))))))))))))))))))))))))))))))))))))))))))))))))))))))))))))))))))))))))))))))))))))))))))))))))))))))))))))))))))))))))))))))))))))))))))))))))))))))))))))))))))))))))))))))))))))))))))))))))))))))))))))))))))))))))))))))))))))))))))))))))))))))))))))))))))))))))))))))))))))))))))))))))))))))))))))))))))))))))))))))))))))))))))))))))))))))))))))))))))))))))))))))))))))))))))))))))))))))))))))))))))))))))))))))))))))))))))))))))))))))))))))))))))))))))))))))))))))))))))))))))))))))))))))))))))))))))))))))))))))))))))))))))))))))))))))))))))))))))))))))))))))))))))))))))))))))))))))))))))))))))))))))))))))))))))))))))))))))))))))))))))))))))))))))))))))))))))))))

  /** The character class of _RE_LOWERCASE (Unicode property Lowercase), work.py:178. */
  const LowercaseRanges: RangeList :=
    Span(0x61, 0x7A, Span(0xAA, 0xAA, Span(0xB5, 0xB5,
    Span(0xBA, 0xBA, Span(0xDF, 0xF6, Span(0xF8, 0xFF,
    Span(0x101, 0x101, Span(0x103, 0x103, Span(0x105, 0x105,
    Span(0x107, 0x107, Span(0x109, 0x109, Span(0x10B, 0x10B,
    Span(0x10D, 0x10D, Span(0x10F, 0x10F, Span(0x111, 0x111,
    Span(0x113, 0x113, Span(0x115, 0x115, Span(0x117, 0x117,
    Span(0x119, 0x119, Span(0x11B, 0x11B, Span(0x11D, 0x11D,
    Span(0x11F, 0x11F, Span(0x121, 0x121, Span(0x123, 0x123,
    Span(0x125, 0x125, Span(0x127, 0x127, Span(0x129, 0x129,
    Span(0x12B, 0x12B, Span(0x12D, 0x12D, Span(0x12F, 0x12F,
    Span(0x131, 0x131, Span(0x133, 0x133, Span(0x135, 0x135,
    Span(0x137, 0x137, Span(0x138, 0x138, Span(0x13A, 0x13A,
    Span(0x13C, 0x13C, Span(0x13E, 0x13E, Span(0x140, 0x140,
    Span(0x142, 0x142, Span(0x144, 0x144, Span(0x146, 0x146,
    Span(0x148, 0x148, Span(0x149, 0x149, Span(0x14B, 0x14B,
    Span(0x14D, 0x14D, Span(0x14F, 0x14F, Span(0x151, 0x151,
    Span(0x153, 0x153, Span(0x155, 0x155, Span(0x157, 0x157,
    Span(0x159, 0x159, Span(0x15B, 0x15B, Span(0x15D, 0x15D,
    Span(0x15F, 0x15F, Span(0x161, 0x161, Span(0x163, 0x163,
    Span(0x165, 0x165, Span(0x167, 0x167, Span(0x169, 0x169,
    Span(0x16B, 0x16B, Span(0x16D, 0x16D, Span(0x16F, 0x16F,
    Span(0x171, 0x171, Span(0x173, 0x173, Span(0x175, 0x175,
    Span(0x177, 0x177, Span(0x17A, 0x17A, Span(0x17C, 0x17C,
    Span(0x17E, 0x180, Span(0x183, 0x183, Span(0x185, 0x185,
    Span(0x188, 0x188, Span(0x18C, 0x18C, Span(0x18D, 0x18D,
    Span(0x192, 0x192, Span(0x195, 0x195, Span(0x199, 0x19B,
    Span(0x19E, 0x19E, Span(0x1A1, 0x1A1, Span(0x1A3, 0x1A3,
    Span(0x1A5, 0x1A5, Span(0x1A8, 0x1A8, Span(0x1AA, 0x1AA,
    Span(0x1AB, 0x1AB, Span(0x1AD, 0x1AD, Span(0x1B0, 0x1B0,
    Span(0x1B4, 0x1B4, Span(0x1B6, 0x1B6, Span(0x1B9, 0x1B9,
    Span(0x1BA, 0x1BA, Span(0x1BD, 0x1BF, Span(0x1C6, 0x1C6,
    Span(0x1C9, 0x1C9, Span(0x1CC, 0x1CC, Span(0x1CE, 0x1CE,
    Span(0x1D0, 0x1D0, Span(0x1D2, 0x1D2, Span(0x1D4, 0x1D4,
    Span(0x1D6, 0x1D6, Span(0x1D8, 0x1D8, Span(0x1DA, 0x1DA,
    Span(0x1DC, 0x1DC, Span(0x1DD, 0x1DD, Span(0x1DF, 0x1DF,
    Span(0x1E1, 0x1E1, Span(0x1E3, 0x1E3, Span(0x1E5, 0x1E5,
    Span(0x1E7, 0x1E7, Span(0x1E9, 0x1E9, Span(0x1EB, 0x1EB,
    Span(0x1ED, 0x1ED, Span(0x1EF, 0x1EF, Span(0x1F0, 0x1F0,
    Span(0x1F3, 0x1F3, Span(0x1F5, 0x1F5, Span(0x1F9, 0x1F9,
    Span(0x1FB, 0x1FB, Span(0x1FD, 0x1FD, Span(0x1FF, 0x1FF,
    Span(0x201, 0x201, Span(0x203, 0x203, Span(0x205, 0x205,
    Span(0x207, 0x207, Span(0x209, 0x209, Span(0x20B, 0x20B,
    Span(0x20D, 0x20D, Span(0x20F, 0x20F, Span(0x211, 0x211,
    Span(0x213, 0x213, Span(0x215, 0x215, Span(0x217, 0x217,
    Span(0x219, 0x219, Span(0x21B, 0x21B, Span(0x21D, 0x21D,
    Span(0x21F, 0x21F, Span(0x221, 0x221, Span(0x223, 0x223,
    Span(0x225, 0x225, Span(0x227, 0x227, Span(0x229, 0x229,
    Span(0x22B, 0x22B, Span(0x22D, 0x22D, Span(0x22F, 0x22F,
    Span(0x231, 0x231, Span(0x233, 0x239, Span(0x23C, 0x23C,
    Span(0x23F, 0x23F, Span(0x240, 0x240, Span(0x242, 0x242,
    Span(0x247, 0x247, Span(0x249, 0x249, Span(0x24B, 0x24B,
    Span(0x24D, 0x24D, Span(0x24F, 0x293, Span(0x295, 0x2B8,
    Span(0x2C0, 0x2C0, Span(0x2C1, 0x2C1, Span(0x2E0, 0x2E4,
    Span(0x345, 0x345, Span(0x371, 0x371, Span(0x373, 0x373,
    Span(0x377, 0x377, Span(0x37A, 0x37D, Span(0x390, 0x390,
    Span(0x3AC, 0x3CE, Span(0x3D0, 0x3D0, Span(0x3D1, 0x3D1,
    Span(0x3D5, 0x3D7, Span(0x3D9, 0x3D9, Span(0x3DB, 0x3DB,
    Span(0x3DD, 0x3DD, Span(0x3DF, 0x3DF, Span(0x3E1, 0x3E1,
    Span(0x3E3, 0x3E3, Span(0x3E5, 0x3E5, Span(0x3E7, 0x3E7,
    Span(0x3E9, 0x3E9, Span(0x3EB, 0x3EB, Span(0x3ED, 0x3ED,
    Span(0x3EF, 0x3F3, Span(0x3F5, 0x3F5, Span(0x3F8, 0x3F8,
    Span(0x3FB, 0x3FB, Span(0x3FC, 0x3FC, Span(0x430, 0x45F,
    Span(0x461, 0x461, Span(0x463, 0x463, Span(0x465, 0x465,
    Span(0x467, 0x467, Span(0x469, 0x469, Span(0x46B, 0x46B,
    Span(0x46D, 0x46D, Span(0x46F, 0x46F, Span(0x471, 0x471,
    Span(0x473, 0x473, Span(0x475, 0x475, Span(0x477, 0x477,
    Span(0x479, 0x479, Span(0x47B, 0x47B, Span(0x47D, 0x47D,
    Span(0x47F, 0x47F, Span(0x481, 0x481, Span(0x48B, 0x48B,
    Span(0x48D, 0x48D, Span(0x48F, 0x48F, Span(0x491, 0x491,
    Span(0x493, 0x493, Span(0x495, 0x495, Span(0x497, 0x497,
    Span(0x499, 0x499, Span(0x49B, 0x49B, Span(0x49D, 0x49D,
    Span(0x49F, 0x49F, Span(0x4A1, 0x4A1, Span(0x4A3, 0x4A3,
    Span(0x4A5, 0x4A5, Span(0x4A7, 0x4A7, Span(0x4A9, 0x4A9,
    Span(0x4AB, 0x4AB, Span(0x4AD, 0x4AD, Span(0x4AF, 0x4AF,
    Span(0x4B1, 0x4B1, Span(0x4B3, 0x4B3, Span(0x4B5, 0x4B5,
    Span(0x4B7, 0x4B7, Span(0x4B9, 0x4B9, Span(0x4BB, 0x4BB,
    Span(0x4BD, 0x4BD, Span(0x4BF, 0x4BF, Span(0x4C2, 0x4C2,
    Span(0x4C4, 0x4C4, Span(0x4C6, 0x4C6, Span(0x4C8, 0x4C8,
    Span(0x4CA, 0x4CA, Span(0x4CC, 0x4CC, Span(0x4CE, 0x4CE,
    Span(0x4CF, 0x4CF, Span(0x4D1, 0x4D1, Span(0x4D3, 0x4D3,
    Span(0x4D5, 0x4D5, Span(0x4D7, 0x4D7, Span(0x4D9, 0x4D9,
    Span(0x4DB, 0x4DB, Span(0x4DD, 0x4DD, Span(0x4DF, 0x4DF,
    Span(0x4E1, 0x4E1, Span(0x4E3, 0x4E3, Span(0x4E5, 0x4E5,
    Span(0x4E7, 0x4E7, Span(0x4E9, 0x4E9, Span(0x4EB, 0x4EB,
    Span(0x4ED, 0x4ED, Span(0x4EF, 0x4EF, Span(0x4F1, 0x4F1,
    Span(0x4F3, 0x4F3, Span(0x4F5, 0x4F5, Span(0x4F7, 0x4F7,
    Span(0x4F9, 0x4F9, Span(0x4FB, 0x4FB, Span(0x4FD, 0x4FD,
    Span(0x4FF, 0x4FF, Span(0x501, 0x501, Span(0x503, 0x503,
    Span(0x505, 0x505, Span(0x507, 0x507, Span(0x509, 0x509,
    Span(0x50B, 0x50B, Span(0x50D, 0x50D, Span(0x50F, 0x50F,
    Span(0x511, 0x511, Span(0x513, 0x513, Span(0x515, 0x515,
    Span(0x517, 0x517, Span(0x519, 0x519, Span(0x51B, 0x51B,
    Span(0x51D, 0x51D, Span(0x51F, 0x51F, Span(0x521, 0x521,
    Span(0x523, 0x523, Span(0x525, 0x525, Span(0x527, 0x527,
    Span(0x529, 0x529, Span(0x52B, 0x52B, Span(0x52D, 0x52D,
    Span(0x52F, 0x52F, Span(0x560, 0x588, Span(0x10D0, 0x10FA,
    Span(0x10FC, 0x10FF, Span(0x13F8, 0x13FD, Span(0x1C80, 0x1C88,
    Span(0x1D00, 0x1DBF, Span(0x1E01, 0x1E01, Span(0x1E03, 0x1E03,
    Span(0x1E05, 0x1E05, Span(0x1E07, 0x1E07, Span(0x1E09, 0x1E09,
    Span(0x1E0B, 0x1E0B, Span(0x1E0D, 0x1E0D, Span(0x1E0F, 0x1E0F,
    Span(0x1E11, 0x1E11, Span(0x1E13, 0x1E13, Span(0x1E15, 0x1E15,
    Span(0x1E17, 0x1E17, Span(0x1E19, 0x1E19, Span(0x1E1B, 0x1E1B,
    Span(0x1E1D, 0x1E1D, Span(0x1E1F, 0x1E1F, Span(0x1E21, 0x1E21,
    Span(0x1E23, 0x1E23, Span(0x1E25, 0x1E25, Span(0x1E27, 0x1E27,
    Span(0x1E29, 0x1E29, Span(0x1E2B, 0x1E2B, Span(0x1E2D, 0x1E2D,
    Span(0x1E2F, 0x1E2F, Span(0x1E31, 0x1E31, Span(0x1E33, 0x1E33,
    Span(0x1E35, 0x1E35, Span(0x1E37, 0x1E37, Span(0x1E39, 0x1E39,
    Span(0x1E3B, 0x1E3B, Span(0x1E3D, 0x1E3D, Span(0x1E3F, 0x1E3F,
    Span(0x1E41, 0x1E41, Span(0x1E43, 0x1E43, Span(0x1E45, 0x1E45,
    Span(0x1E47, 0x1E47, Span(0x1E49, 0x1E49, Span(0x1E4B, 0x1E4B,
    Span(0x1E4D, 0x1E4D, Span(0x1E4F, 0x1E4F, Span(0x1E51, 0x1E51,
    Span(0x1E53, 0x1E53, Span(0x1E55, 0x1E55, Span(0x1E57, 0x1E57,
    Span(0x1E59, 0x1E59, Span(0x1E5B, 0x1E5B, Span(0x1E5D, 0x1E5D,
    Span(0x1E5F, 0x1E5F, Span(0x1E61, 0x1E61, Span(0x1E63, 0x1E63,
    Span(0x1E65, 0x1E65, Span(0x1E67, 0x1E67, Span(0x1E69, 0x1E69,
    Span(0x1E6B, 0x1E6B, Span(0x1E6D, 0x1E6D, Span(0x1E6F, 0x1E6F,
    Span(0x1E71, 0x1E71, Span(0x1E73, 0x1E73, Span(0x1E75, 0x1E75,
    Span(0x1E77, 0x1E77, Span(0x1E79, 0x1E79, Span(0x1E7B, 0x1E7B,
    Span(0x1E7D, 0x1E7D, Span(0x1E7F, 0x1E7F, Span(0x1E81, 0x1E81,
    Span(0x1E83, 0x1E83, Span(0x1E85, 0x1E85, Span(0x1E87, 0x1E87,
    Span(0x1E89, 0x1E89, Span(0x1E8B, 0x1E8B, Span(0x1E8D, 0x1E8D,
    Span(0x1E8F, 0x1E8F, Span(0x1E91, 0x1E91, Span(0x1E93, 0x1E93,
    Span(0x1E95, 0x1E9D, Span(0x1E9F, 0x1E9F, Span(0x1EA1, 0x1EA1,
    Span(0x1EA3, 0x1EA3, Span(0x1EA5, 0x1EA5, Span(0x1EA7, 0x1EA7,
    Span(0x1EA9, 0x1EA9, Span(0x1EAB, 0x1EAB, Span(0x1EAD, 0x1EAD,
    Span(0x1EAF, 0x1EAF, Span(0x1EB1, 0x1EB1, Span(0x1EB3, 0x1EB3,
    Span(0x1EB5, 0x1EB5, Span(0x1EB7, 0x1EB7, Span(0x1EB9, 0x1EB9,
    Span(0x1EBB, 0x1EBB, Span(0x1EBD, 0x1EBD, Span(0x1EBF, 0x1EBF,
    Span(0x1EC1, 0x1EC1, Span(0x1EC3, 0x1EC3, Span(0x1EC5, 0x1EC5,
    Span(0x1EC7, 0x1EC7, Span(0x1EC9, 0x1EC9, Span(0x1ECB, 0x1ECB,
    Span(0x1ECD, 0x1ECD, Span(0x1ECF, 0x1ECF, Span(0x1ED1, 0x1ED1,
    Span(0x1ED3, 0x1ED3, Span(0x1ED5, 0x1ED5, Span(0x1ED7, 0x1ED7,
    Span(0x1ED9, 0x1ED9, Span(0x1EDB, 0x1EDB, Span(0x1EDD, 0x1EDD,
    Span(0x1EDF, 0x1EDF, Span(0x1EE1, 0x1EE1, Span(0x1EE3, 0x1EE3,
    Span(0x1EE5, 0x1EE5, Span(0x1EE7, 0x1EE7, Span(0x1EE9, 0x1EE9,
    Span(0x1EEB, 0x1EEB, Span(0x1EED, 0x1EED, Span(0x1EEF, 0x1EEF,
    Span(0x1EF1, 0x1EF1, Span(0x1EF3, 0x1EF3, Span(0x1EF5, 0x1EF5,
    Span(0x1EF7, 0x1EF7, Span(0x1EF9, 0x1EF9, Span(0x1EFB, 0x1EFB,
    Span(0x1EFD, 0x1EFD, Span(0x1EFF, 0x1F07, Span(0x1F10, 0x1F15,
    Span(0x1F20, 0x1F27, Span(0x1F30, 0x1F37, Span(0x1F40, 0x1F45,
    Span(0x1F50, 0x1F57, Span(0x1F60, 0x1F67, Span(0x1F70, 0x1F7D,
    Span(0x1F80, 0x1F87, Span(0x1F90, 0x1F97, Span(0x1FA0, 0x1FA7,
    Span(0x1FB0, 0x1FB4, Span(0x1FB6, 0x1FB6, Span(0x1FB7, 0x1FB7,
    Span(0x1FBE, 0x1FBE, Span(0x1FC2, 0x1FC4, Span(0x1FC6, 0x1FC6,
    Span(0x1FC7, 0x1FC7, Span(0x1FD0, 0x1FD3, Span(0x1FD6, 0x1FD6,
    Span(0x1FD7, 0x1FD7, Span(0x1FE0, 0x1FE7, Span(0x1FF2, 0x1FF4,
    Span(0x1FF6, 0x1FF6, Span(0x1FF7, 0x1FF7, Span(0x2071, 0x2071,
    Span(0x207F, 0x207F, Span(0x2090, 0x209C, Span(0x210A, 0x210A,
    Span(0x210E, 0x210E, Span(0x210F, 0x210F, Span(0x2113, 0x2113,
    Span(0x212F, 0x212F, Span(0x2134, 0x2134, Span(0x2139, 0x2139,
    Span(0x213C, 0x213C, Span(0x213D, 0x213D, Span(0x2146, 0x2149,
    Span(0x214E, 0x214E, Span(0x2170, 0x217F, Span(0x2184, 0x2184,
    Span(0x24D0, 0x24E9, Span(0x2C30, 0x2C5F, Span(0x2C61, 0x2C61,
    Span(0x2C65, 0x2C65, Span(0x2C66, 0x2C66, Span(0x2C68, 0x2C68,
    Span(0x2C6A, 0x2C6A, Span(0x2C6C, 0x2C6C, Span(0x2C71, 0x2C71,
    Span(0x2C73, 0x2C73, Span(0x2C74, 0x2C74, Span(0x2C76, 0x2C7D,
    Span(0x2C81, 0x2C81, Span(0x2C83, 0x2C83, Span(0x2C85, 0x2C85,
    Span(0x2C87, 0x2C87, Span(0x2C89, 0x2C89, Span(0x2C8B, 0x2C8B,
    Span(0x2C8D, 0x2C8D, Span(0x2C8F, 0x2C8F, Span(0x2C91, 0x2C91,
    Span(0x2C93, 0x2C93, Span(0x2C95, 0x2C95, Span(0x2C97, 0x2C97,
    Span(0x2C99, 0x2C99, Span(0x2C9B, 0x2C9B, Span(0x2C9D, 0x2C9D,
    Span(0x2C9F, 0x2C9F, Span(0x2CA1, 0x2CA1, Span(0x2CA3, 0x2CA3,
    Span(0x2CA5, 0x2CA5, Span(0x2CA7, 0x2CA7, Span(0x2CA9, 0x2CA9,
    Span(0x2CAB, 0x2CAB, Span(0x2CAD, 0x2CAD, Span(0x2CAF, 0x2CAF,
    Span(0x2CB1, 0x2CB1, Span(0x2CB3, 0x2CB3, Span(0x2CB5, 0x2CB5,
    Span(0x2CB7, 0x2CB7, Span(0x2CB9, 0x2CB9, Span(0x2CBB, 0x2CBB,
    Span(0x2CBD, 0x2CBD, Span(0x2CBF, 0x2CBF, Span(0x2CC1, 0x2CC1,
    Span(0x2CC3, 0x2CC3, Span(0x2CC5, 0x2CC5, Span(0x2CC7, 0x2CC7,
    Span(0x2CC9, 0x2CC9, Span(0x2CCB, 0x2CCB, Span(0x2CCD, 0x2CCD,
    Span(0x2CCF, 0x2CCF, Span(0x2CD1, 0x2CD1, Span(0x2CD3, 0x2CD3,
    Span(0x2CD5, 0x2CD5, Span(0x2CD7, 0x2CD7, Span(0x2CD9, 0x2CD9,
    Span(0x2CDB, 0x2CDB, Span(0x2CDD, 0x2CDD, Span(0x2CDF, 0x2CDF,
    Span(0x2CE1, 0x2CE1, Span(0x2CE3, 0x2CE3, Span(0x2CE4, 0x2CE4,
    Span(0x2CEC, 0x2CEC, Span(0x2CEE, 0x2CEE, Span(0x2CF3, 0x2CF3,
    Span(0x2D00, 0x2D25, Span(0x2D27, 0x2D27, Span(0x2D2D, 0x2D2D,
    Span(0xA641, 0xA641, Span(0xA643, 0xA643, Span(0xA645, 0xA645,
    Span(0xA647, 0xA647, Span(0xA649, 0xA649, Span(0xA64B, 0xA64B,
    Span(0xA64D, 0xA64D, Span(0xA64F, 0xA64F, Span(0xA651, 0xA651,
    Span(0xA653, 0xA653, Span(0xA655, 0xA655, Span(0xA657, 0xA657,
    Span(0xA659, 0xA659, Span(0xA65B, 0xA65B, Span(0xA65D, 0xA65D,
    Span(0xA65F, 0xA65F, Span(0xA661, 0xA661, Span(0xA663, 0xA663,
    Span(0xA665, 0xA665, Span(0xA667, 0xA667, Span(0xA669, 0xA669,
    Span(0xA66B, 0xA66B, Span(0xA66D, 0xA66D, Span(0xA681, 0xA681,
    Span(0xA683, 0xA683, Span(0xA685, 0xA685, Span(0xA687, 0xA687,
    Span(0xA689, 0xA689, Span(0xA68B, 0xA68B, Span(0xA68D, 0xA68D,
    Span(0xA68F, 0xA68F, Span(0xA691, 0xA691, Span(0xA693, 0xA693,
    Span(0xA695, 0xA695, Span(0xA697, 0xA697, Span(0xA699, 0xA699,
    Span(0xA69B, 0xA69D, Span(0xA723, 0xA723, Span(0xA725, 0xA725,
    Span(0xA727, 0xA727, Span(0xA729, 0xA729, Span(0xA72B, 0xA72B,
    Span(0xA72D, 0xA72D, Span(0xA72F, 0xA731, Span(0xA733, 0xA733,
    Span(0xA735, 0xA735, Span(0xA737, 0xA737, Span(0xA739, 0xA739,
    Span(0xA73B, 0xA73B, Span(0xA73D, 0xA73D, Span(0xA73F, 0xA73F,
    Span(0xA741, 0xA741, Span(0xA743, 0xA743, Span(0xA745, 0xA745,
    Span(0xA747, 0xA747, Span(0xA749, 0xA749, Span(0xA74B, 0xA74B,
    Span(0xA74D, 0xA74D, Span(0xA74F, 0xA74F, Span(0xA751, 0xA751,
    Span(0xA753, 0xA753, Span(0xA755, 0xA755, Span(0xA757, 0xA757,
    Span(0xA759, 0xA759, Span(0xA75B, 0xA75B, Span(0xA75D, 0xA75D,
    Span(0xA75F, 0xA75F, Span(0xA761, 0xA761, Span(0xA763, 0xA763,
    Span(0xA765, 0xA765, Span(0xA767, 0xA767, Span(0xA769, 0xA769,
    Span(0xA76B, 0xA76B, Span(0xA76D, 0xA76D, Span(0xA76F, 0xA778,
    Span(0xA77A, 0xA77A, Span(0xA77C, 0xA77C, Span(0xA77F, 0xA77F,
    Span(0xA781, 0xA781, Span(0xA783, 0xA783, Span(0xA785, 0xA785,
    Span(0xA787, 0xA787, Span(0xA78C, 0xA78C, Span(0xA78E, 0xA78E,
    Span(0xA791, 0xA791, Span(0xA793, 0xA795, Span(0xA797, 0xA797,
    Span(0xA799, 0xA799, Span(0xA79B, 0xA79B, Span(0xA79D, 0xA79D,
    Span(0xA79F, 0xA79F, Span(0xA7A1, 0xA7A1, Span(0xA7A3, 0xA7A3,
    Span(0xA7A5, 0xA7A5, Span(0xA7A7, 0xA7A7, Span(0xA7A9, 0xA7A9,
    Span(0xA7AF, 0xA7AF, Span(0xA7B5, 0xA7B5, Span(0xA7B7, 0xA7B7,
    Span(0xA7B9, 0xA7B9, Span(0xA7BB, 0xA7BB, Span(0xA7BD, 0xA7BD,
    Span(0xA7BF, 0xA7BF, Span(0xA7C1, 0xA7C1, Span(0xA7C3, 0xA7C3,
    Span(0xA7C8, 0xA7C8, Span(0xA7CA, 0xA7CA, Span(0xA7D1, 0xA7D1,
    Span(0xA7D3, 0xA7D3, Span(0xA7D5, 0xA7D5, Span(0xA7D7, 0xA7D7,
    Span(0xA7D9, 0xA7D9, Span(0xA7F2, 0xA7F4, Span(0xA7F6, 0xA7F6,
    Span(0xA7F8, 0xA7FA, Span(0xAB30, 0xAB5A, Span(0xAB5C, 0xAB69,
    Span(0xAB70, 0xABBF, Span(0xFB00, 0xFB06, Span(0xFB13, 0xFB17,
    Span(0xFF41, 0xFF5A, Span(0x10428, 0x1044F, Span(0x104D8, 0x104FB,
    Span(0x10597, 0x105A1, Span(0x105A3, 0x105B1, Span(0x105B3, 0x105B9,
    Span(0x105BB, 0x105BB, Span(0x105BC, 0x105BC, Span(0x10780, 0x10780,
    Span(0x10783, 0x10785, Span(0x10787, 0x107B0, Span(0x107B2, 0x107BA,
    Span(0x10CC0, 0x10CF2, Span(0x118C0, 0x118DF, Span(0x16E60, 0x16E7F,
    Span(0x1D41A, 0x1D433, Span(0x1D44E, 0x1D454, Span(0x1D456, 0x1D467,
    Span(0x1D482, 0x1D49B, Span(0x1D4B6, 0x1D4B9, Span(0x1D4BB, 0x1D4BB,
    Span(0x1D4BD, 0x1D4C3, Span(0x1D4C5, 0x1D4CF, Span(0x1D4EA, 0x1D503,
    Span(0x1D51E, 0x1D537, Span(0x1D552, 0x1D56B, Span(0x1D586, 0x1D59F,
    Span(0x1D5BA, 0x1D5D3, Span(0x1D5EE, 0x1D607, Span(0x1D622, 0x1D63B,
    Span(0x1D656, 0x1D66F, Span(0x1D68A, 0x1D6A5, Span(0x1D6C2, 0x1D6DA,
    Span(0x1D6DC, 0x1D6E1, Span(0x1D6FC, 0x1D714, Span(0x1D716, 0x1D71B,
    Span(0x1D736, 0x1D74E, Span(0x1D750, 0x1D755, Span(0x1D770, 0x1D788,
    Span(0x1D78A, 0x1D78F, Span(0x1D7AA, 0x1D7C2, Span(0x1D7C4, 0x1D7C9,
    Span(0x1D7CB, 0x1D7CB, Span(0x1DF00, 0x1DF09, Span(0x1DF0B, 0x1DF1E,
    Span(0x1DF25, 0x1DF2A, Span(0x1E030, 0x1E06D, Span(0x1E922, 0x1E943, End)))))))))))))))))))))))))))))))))))))))))))))))))))))))))))))))))))))))))))))))))))))))))))))))))))))))))))))))))))))))))))))))))))))))))))))))))))))))))))))))))))))))))))))))))))))))))))))))))))))))))))))))))))))))))))))))))))))))))))))))))))))))))))))))))))))))))))))))))))))))))))))))))))))))))))))))))))))))))))))))))))))))))))))))))))))))))))))))))))))))))))))))))))))))))))))))))))))))))))))))))))))))))))))))))))))))))))))))))))))))))))))))))))))))))))))))))))))))))))))))))))))))))))))))))))))))))))))))))))))))))))))))))))))))))))))))))))))))))))))))))))))))))))))))))))))))))))))))))))))))))))))))))))))))))))))))))))))))))))))))))))))))))))))))))))))))))))))))))))))))))))))))))))))

  /** The character class of _RE_MODIFIER (general category Sk), work.py:182. */
  const ModifierRanges: RangeList :=
    Span(0x5E, 0x5E, Span(0x60, 0x60, Span(0xA8, 0xA8,
    Span(0xAF, 0xAF, Span(0xB4, 0xB4, Span(0xB8, 0xB8,
    Span(0x2C2, 0x2C5, Span(0x2D2, 0x2D2, Span(0x2D3, 0x2D3,
    Span(0x2D4, 0x2D9, Span(0x2DA, 0x2DF, Span(0x2E5, 0x2FF,
    Span(0x375, 0x375, Span(0x384, 0x384, Span(0x385, 0x385,
    Span(0x888, 0x888, Span(0x1FBD, 0x1FBD, Span(0x1FBF, 0x1FC1,
    Span(0x1FCD, 0x1FCF, Span(0x1FDD, 0x1FDF, Span(0x1FED, 0x1FED,
    Span(0x1FEE, 0x1FEE, Span(0x1FEF, 0x1FEF, Span(0x1FFD, 0x1FFD,
    Span(0x1FFE, 0x1FFE, Span(0x309B, 0x309B, Span(0x309C, 0x309C,
    Span(0xA700, 0xA716, Span(0xA720, 0xA720, Span(0xA721, 0xA721,
    Span(0xA789, 0xA789, Span(0xA78A, 0xA78A, Span(0xAB5B, 0xAB5B,
    Span(0xAB6A, 0xAB6A, Span(0xAB6B, 0xAB6B, Span(0xFBB2, 0xFBC2,
    Span(0xFF3E, 0xFF3E, Span(0xFF40, 0xFF40, Span(0xFFE3, 0xFFE3, End)))))))))))))))))))))))))))))))))))))))

  /** The character class of _RE_DASH (general category Pd), work.py:185. */
  const DashRanges: RangeList :=
    Span(0x2D, 0x2D, Span(0x58A, 0x58A, Span(0x1806, 0x1806,
    Span(0x2010, 0x2015, Span(0xFE58, 0xFE58, Span(0xFE63, 0xFE63,
    Span(0xFF0D, 0xFF0D, End)))))))

  /** The character class of _RE_SPACE (general category Zs), work.py:187. */
  const SpaceRanges: RangeList :=
    Span(0x20, 0x20, Span(0xA0, 0xA0, Span(0x2000, 0x200A,
    Span(0x202F, 0x202F, Span(0x205F, 0x205F, Span(0x3000, 0x3000, End))))))
}
