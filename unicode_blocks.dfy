/** The fixed table `UNICODE_BLOCKS` (src/unicode/mod.rs:56-377) and the two
    `CharBlock` implementations that search it, with the facts the program relies
    on: the table is well formed, surrogates and gaps belong to no block, and
    particular code points land in particular blocks.

    The 317 rows are written as consecutive slices of 10 rows, `PART_00` to
    `PART_31`, joined in order into four groups `ROWS_A` to `ROWS_D` and those
    into `UNICODE_BLOCKS`; the concatenation is the source's row list, unchanged.
    Well-formedness is checked slice by slice and the results are joined with
    `WellFormedAppend`, which keeps each proof small. */
module UnicodeBlocks {
  import opened BlockIndex

  // Rows 0 to 9 (src/unicode/mod.rs:57-66).
  const PART_00: seq<Block> := [
    Block(0x0000, 0x007F, "Basic Latin"),
    Block(0x0080, 0x00FF, "Latin-1 Supplement"),
    Block(0x0100, 0x017F, "Latin Extended-A"),
    Block(0x0180, 0x024F, "Latin Extended-B"),
    Block(0x0250, 0x02AF, "IPA Extensions"),
    Block(0x02B0, 0x02FF, "Spacing Modifier Letters"),
    Block(0x0300, 0x036F, "Combining Diacritical Marks"),
    Block(0x0370, 0x03FF, "Greek and Coptic"),
    Block(0x0400, 0x04FF, "Cyrillic"),
    Block(0x0500, 0x052F, "Cyrillic Supplement")
  ]

  // Rows 10 to 19 (src/unicode/mod.rs:67-76).
  const PART_01: seq<Block> := [
    Block(0x0530, 0x058F, "Armenian"),
    Block(0x0590, 0x05FF, "Hebrew"),
    Block(0x0600, 0x06FF, "Arabic"),
    Block(0x0700, 0x074F, "Syriac"),
    Block(0x0750, 0x077F, "Arabic Supplement"),
    Block(0x0780, 0x07BF, "Thaana"),
    Block(0x07C0, 0x07FF, "NKo"),
    Block(0x0800, 0x083F, "Samaritan"),
    Block(0x0840, 0x085F, "Mandaic"),
    Block(0x0860, 0x086F, "Syriac Supplement")
  ]

  // Rows 20 to 29 (src/unicode/mod.rs:77-86).
  const PART_02: seq<Block> := [
    Block(0x0870, 0x089F, "Arabic Extended-B"),
    Block(0x08A0, 0x08FF, "Arabic Extended-A"),
    Block(0x0900, 0x097F, "Devanagari"),
    Block(0x0980, 0x09FF, "Bengali"),
    Block(0x0A00, 0x0A7F, "Gurmukhi"),
    Block(0x0A80, 0x0AFF, "Gujarati"),
    Block(0x0B00, 0x0B7F, "Oriya"),
    Block(0x0B80, 0x0BFF, "Tamil"),
    Block(0x0C00, 0x0C7F, "Telugu"),
    Block(0x0C80, 0x0CFF, "Kannada")
  ]

  // Rows 30 to 39 (src/unicode/mod.rs:87-96).
  const PART_03: seq<Block> := [
    Block(0x0D00, 0x0D7F, "Malayalam"),
    Block(0x0D80, 0x0DFF, "Sinhala"),
    Block(0x0E00, 0x0E7F, "Thai"),
    Block(0x0E80, 0x0EFF, "Lao"),
    Block(0x0F00, 0x0FFF, "Tibetan"),
    Block(0x1000, 0x109F, "Myanmar"),
    Block(0x10A0, 0x10FF, "Georgian"),
    Block(0x1100, 0x11FF, "Hangul Jamo"),
    Block(0x1200, 0x137F, "Ethiopic"),
    Block(0x1380, 0x139F, "Ethiopic Supplement")
  ]

  // Rows 40 to 49 (src/unicode/mod.rs:97-106).
  const PART_04: seq<Block> := [
    Block(0x13A0, 0x13FF, "Cherokee"),
    Block(0x1400, 0x167F, "Unified Canadian Aboriginal Syllabics"),
    Block(0x1680, 0x169F, "Ogham"),
    Block(0x16A0, 0x16FF, "Runic"),
    Block(0x1700, 0x171F, "Tagalog"),
    Block(0x1720, 0x173F, "Hanunoo"),
    Block(0x1740, 0x175F, "Buhid"),
    Block(0x1760, 0x177F, "Tagbanwa"),
    Block(0x1780, 0x17FF, "Khmer"),
    Block(0x1800, 0x18AF, "Mongolian")
  ]

  // Rows 50 to 59 (src/unicode/mod.rs:107-116).
  const PART_05: seq<Block> := [
    Block(0x18B0, 0x18FF, "Unified Canadian Aboriginal Syllabics Extended"),
    Block(0x1900, 0x194F, "Limbu"),
    Block(0x1950, 0x197F, "Tai Le"),
    Block(0x1980, 0x19DF, "New Tai Lue"),
    Block(0x19E0, 0x19FF, "Khmer Symbols"),
    Block(0x1A00, 0x1A1F, "Buginese"),
    Block(0x1A20, 0x1AAF, "Tai Tham"),
    Block(0x1AB0, 0x1AFF, "Combining Diacritical Marks Extended"),
    Block(0x1B00, 0x1B7F, "Balinese"),
    Block(0x1B80, 0x1BBF, "Sundanese")
  ]

  // Rows 60 to 69 (src/unicode/mod.rs:117-126).
  const PART_06: seq<Block> := [
    Block(0x1BC0, 0x1BFF, "Batak"),
    Block(0x1C00, 0x1C4F, "Lepcha"),
    Block(0x1C50, 0x1C7F, "Ol Chiki"),
    Block(0x1C80, 0x1C8F, "Cyrillic Extended-C"),
    Block(0x1C90, 0x1CBF, "Georgian Extended"),
    Block(0x1CC0, 0x1CCF, "Sundanese Supplement"),
    Block(0x1CD0, 0x1CFF, "Vedic Extensions"),
    Block(0x1D00, 0x1D7F, "Phonetic Extensions"),
    Block(0x1D80, 0x1DBF, "Phonetic Extensions Supplement"),
    Block(0x1DC0, 0x1DFF, "Combining Diacritical Marks Supplement")
  ]

  // Rows 70 to 79 (src/unicode/mod.rs:127-136).
  const PART_07: seq<Block> := [
    Block(0x1E00, 0x1EFF, "Latin Extended Additional"),
    Block(0x1F00, 0x1FFF, "Greek Extended"),
    Block(0x2000, 0x206F, "General Punctuation"),
    Block(0x2070, 0x209F, "Superscripts and Subscripts"),
    Block(0x20A0, 0x20CF, "Currency Symbols"),
    Block(0x20D0, 0x20FF, "Combining Diacritical Marks for Symbols"),
    Block(0x2100, 0x214F, "Letterlike Symbols"),
    Block(0x2150, 0x218F, "Number Forms"),
    Block(0x2190, 0x21FF, "Arrows"),
    Block(0x2200, 0x22FF, "Mathematical Operators")
  ]

  // Rows 80 to 89 (src/unicode/mod.rs:137-146).
  const PART_08: seq<Block> := [
    Block(0x2300, 0x23FF, "Miscellaneous Technical"),
    Block(0x2400, 0x243F, "Control Pictures"),
    Block(0x2440, 0x245F, "Optical Character Recognition"),
    Block(0x2460, 0x24FF, "Enclosed Alphanumerics"),
    Block(0x2500, 0x257F, "Box Drawing"),
    Block(0x2580, 0x259F, "Block Elements"),
    Block(0x25A0, 0x25FF, "Geometric Shapes"),
    Block(0x2600, 0x26FF, "Miscellaneous Symbols"),
    Block(0x2700, 0x27BF, "Dingbats"),
    Block(0x27C0, 0x27EF, "Miscellaneous Mathematical Symbols-A")
  ]

  // Rows 90 to 99 (src/unicode/mod.rs:147-156).
  const PART_09: seq<Block> := [
    Block(0x27F0, 0x27FF, "Supplemental Arrows-A"),
    Block(0x2800, 0x28FF, "Braille Patterns"),
    Block(0x2900, 0x297F, "Supplemental Arrows-B"),
    Block(0x2980, 0x29FF, "Miscellaneous Mathematical Symbols-B"),
    Block(0x2A00, 0x2AFF, "Supplemental Mathematical Operators"),
    Block(0x2B00, 0x2BFF, "Miscellaneous Symbols and Arrows"),
    Block(0x2C00, 0x2C5F, "Glagolitic"),
    Block(0x2C60, 0x2C7F, "Latin Extended-C"),
    Block(0x2C80, 0x2CFF, "Coptic"),
    Block(0x2D00, 0x2D2F, "Georgian Supplement")
  ]

  // Rows 100 to 109 (src/unicode/mod.rs:157-166).
  const PART_10: seq<Block> := [
    Block(0x2D30, 0x2D7F, "Tifinagh"),
    Block(0x2D80, 0x2DDF, "Ethiopic Extended"),
    Block(0x2DE0, 0x2DFF, "Cyrillic Extended-A"),
    Block(0x2E00, 0x2E7F, "Supplemental Punctuation"),
    Block(0x2E80, 0x2EFF, "CJK Radicals Supplement"),
    Block(0x2F00, 0x2FDF, "Kangxi Radicals"),
    Block(0x2FF0, 0x2FFF, "Ideographic Description Characters"),
    Block(0x3000, 0x303F, "CJK Symbols and Punctuation"),
    Block(0x3040, 0x309F, "Hiragana"),
    Block(0x30A0, 0x30FF, "Katakana")
  ]

  // Rows 110 to 119 (src/unicode/mod.rs:167-176).
  const PART_11: seq<Block> := [
    Block(0x3100, 0x312F, "Bopomofo"),
    Block(0x3130, 0x318F, "Hangul Compatibility Jamo"),
    Block(0x3190, 0x319F, "Kanbun"),
    Block(0x31A0, 0x31BF, "Bopomofo Extended"),
    Block(0x31C0, 0x31EF, "CJK Strokes"),
    Block(0x31F0, 0x31FF, "Katakana Phonetic Extensions"),
    Block(0x3200, 0x32FF, "Enclosed CJK Letters and Months"),
    Block(0x3300, 0x33FF, "CJK Compatibility"),
    Block(0x3400, 0x4DBF, "CJK Unified Ideographs Extension A"),
    Block(0x4DC0, 0x4DFF, "Yijing Hexagram Symbols")
  ]

  // Rows 120 to 129 (src/unicode/mod.rs:177-186).
  const PART_12: seq<Block> := [
    Block(0x4E00, 0x9FFF, "CJK Unified Ideographs"),
    Block(0xA000, 0xA48F, "Yi Syllables"),
    Block(0xA490, 0xA4CF, "Yi Radicals"),
    Block(0xA4D0, 0xA4FF, "Lisu"),
    Block(0xA500, 0xA63F, "Vai"),
    Block(0xA640, 0xA69F, "Cyrillic Extended-B"),
    Block(0xA6A0, 0xA6FF, "Bamum"),
    Block(0xA700, 0xA71F, "Modifier Tone Letters"),
    Block(0xA720, 0xA7FF, "Latin Extended-D"),
    Block(0xA800, 0xA82F, "Syloti Nagri")
  ]

  // Rows 130 to 139 (src/unicode/mod.rs:187-196).
  const PART_13: seq<Block> := [
    Block(0xA830, 0xA83F, "Common Indic Number Forms"),
    Block(0xA840, 0xA87F, "Phags-pa"),
    Block(0xA880, 0xA8DF, "Saurashtra"),
    Block(0xA8E0, 0xA8FF, "Devanagari Extended"),
    Block(0xA900, 0xA92F, "Kayah Li"),
    Block(0xA930, 0xA95F, "Rejang"),
    Block(0xA960, 0xA97F, "Hangul Jamo Extended-A"),
    Block(0xA980, 0xA9DF, "Javanese"),
    Block(0xA9E0, 0xA9FF, "Myanmar Extended-B"),
    Block(0xAA00, 0xAA5F, "Cham")
  ]

  // Rows 140 to 149 (src/unicode/mod.rs:197-209).
  const PART_14: seq<Block> := [
    Block(0xAA60, 0xAA7F, "Myanmar Extended-A"),
    Block(0xAA80, 0xAADF, "Tai Viet"),
    Block(0xAAE0, 0xAAFF, "Meetei Mayek Extensions"),
    Block(0xAB00, 0xAB2F, "Ethiopic Extended-A"),
    Block(0xAB30, 0xAB6F, "Latin Extended-E"),
    Block(0xAB70, 0xABBF, "Cherokee Supplement"),
    Block(0xABC0, 0xABFF, "Meetei Mayek"),
    Block(0xAC00, 0xD7AF, "Hangul Syllables"),
    Block(0xD7B0, 0xD7FF, "Hangul Jamo Extended-B"),
    Block(0xE000, 0xF8FF, "Private Use Area")
  ]

  // Rows 150 to 159 (src/unicode/mod.rs:210-219).
  const PART_15: seq<Block> := [
    Block(0xF900, 0xFAFF, "CJK Compatibility Ideographs"),
    Block(0xFB00, 0xFB4F, "Alphabetic Presentation Forms"),
    Block(0xFB50, 0xFDFF, "Arabic Presentation Forms-A"),
    Block(0xFE00, 0xFE0F, "Variation Selectors"),
    Block(0xFE10, 0xFE1F, "Vertical Forms"),
    Block(0xFE20, 0xFE2F, "Combining Half Marks"),
    Block(0xFE30, 0xFE4F, "CJK Compatibility Forms"),
    Block(0xFE50, 0xFE6F, "Small Form Variants"),
    Block(0xFE70, 0xFEFF, "Arabic Presentation Forms-B"),
    Block(0xFF00, 0xFFEF, "Halfwidth and Fullwidth Forms")
  ]

  // Rows 160 to 169 (src/unicode/mod.rs:220-229).
  const PART_16: seq<Block> := [
    Block(0xFFF0, 0xFFFF, "Specials"),
    Block(0x10000, 0x1007F, "Linear B Syllabary"),
    Block(0x10080, 0x100FF, "Linear B Ideograms"),
    Block(0x10100, 0x1013F, "Aegean Numbers"),
    Block(0x10140, 0x1018F, "Ancient Greek Numbers"),
    Block(0x10190, 0x101CF, "Ancient Symbols"),
    Block(0x101D0, 0x101FF, "Phaistos Disc"),
    Block(0x10280, 0x1029F, "Lycian"),
    Block(0x102A0, 0x102DF, "Carian"),
    Block(0x102E0, 0x102FF, "Coptic Epact Numbers")
  ]

  // Rows 170 to 179 (src/unicode/mod.rs:230-239).
  const PART_17: seq<Block> := [
    Block(0x10300, 0x1032F, "Old Italic"),
    Block(0x10330, 0x1034F, "Gothic"),
    Block(0x10350, 0x1037F, "Old Permic"),
    Block(0x10380, 0x1039F, "Ugaritic"),
    Block(0x103A0, 0x103DF, "Old Persian"),
    Block(0x10400, 0x1044F, "Deseret"),
    Block(0x10450, 0x1047F, "Shavian"),
    Block(0x10480, 0x104AF, "Osmanya"),
    Block(0x104B0, 0x104FF, "Osage"),
    Block(0x10500, 0x1052F, "Elbasan")
  ]

  // Rows 180 to 189 (src/unicode/mod.rs:240-249).
  const PART_18: seq<Block> := [
    Block(0x10530, 0x1056F, "Caucasian Albanian"),
    Block(0x10570, 0x105BF, "Vithkuqi"),
    Block(0x10600, 0x1077F, "Linear A"),
    Block(0x10780, 0x107BF, "Latin Extended-F"),
    Block(0x10800, 0x1083F, "Cypriot Syllabary"),
    Block(0x10840, 0x1085F, "Imperial Aramaic"),
    Block(0x10860, 0x1087F, "Palmyrene"),
    Block(0x10880, 0x108AF, "Nabataean"),
    Block(0x108E0, 0x108FF, "Hatran"),
    Block(0x10900, 0x1091F, "Phoenician")
  ]

  // Rows 190 to 199 (src/unicode/mod.rs:250-259).
  const PART_19: seq<Block> := [
    Block(0x10920, 0x1093F, "Lydian"),
    Block(0x10980, 0x1099F, "Meroitic Hieroglyphs"),
    Block(0x109A0, 0x109FF, "Meroitic Cursive"),
    Block(0x10A00, 0x10A5F, "Kharoshthi"),
    Block(0x10A60, 0x10A7F, "Old South Arabian"),
    Block(0x10A80, 0x10A9F, "Old North Arabian"),
    Block(0x10AC0, 0x10AFF, "Manichaean"),
    Block(0x10B00, 0x10B3F, "Avestan"),
    Block(0x10B40, 0x10B5F, "Inscriptional Parthian"),
    Block(0x10B60, 0x10B7F, "Inscriptional Pahlavi")
  ]

  // Rows 200 to 209 (src/unicode/mod.rs:260-269).
  const PART_20: seq<Block> := [
    Block(0x10B80, 0x10BAF, "Psalter Pahlavi"),
    Block(0x10C00, 0x10C4F, "Old Turkic"),
    Block(0x10C80, 0x10CFF, "Old Hungarian"),
    Block(0x10D00, 0x10D3F, "Hanifi Rohingya"),
    Block(0x10E60, 0x10E7F, "Rumi Numeral Symbols"),
    Block(0x10E80, 0x10EBF, "Yezidi"),
    Block(0x10F00, 0x10F2F, "Old Sogdian"),
    Block(0x10F30, 0x10F6F, "Sogdian"),
    Block(0x10F70, 0x10FAF, "Old Uyghur"),
    Block(0x10FB0, 0x10FDF, "Chorasmian")
  ]

  // Rows 210 to 219 (src/unicode/mod.rs:270-279).
  const PART_21: seq<Block> := [
    Block(0x10FE0, 0x10FFF, "Elymaic"),
    Block(0x11000, 0x1107F, "Brahmi"),
    Block(0x11080, 0x110CF, "Kaithi"),
    Block(0x110D0, 0x110FF, "Sora Sompeng"),
    Block(0x11100, 0x1114F, "Chakma"),
    Block(0x11150, 0x1117F, "Mahajani"),
    Block(0x11180, 0x111DF, "Sharada"),
    Block(0x111E0, 0x111FF, "Sinhala Archaic Numbers"),
    Block(0x11200, 0x1124F, "Khojki"),
    Block(0x11280, 0x112AF, "Multani")
  ]

  // Rows 220 to 229 (src/unicode/mod.rs:280-289).
  const PART_22: seq<Block> := [
    Block(0x112B0, 0x112FF, "Khudawadi"),
    Block(0x11300, 0x1137F, "Grantha"),
    Block(0x11400, 0x1147F, "Newa"),
    Block(0x11480, 0x114DF, "Tirhuta"),
    Block(0x11580, 0x115FF, "Siddham"),
    Block(0x11600, 0x1165F, "Modi"),
    Block(0x11660, 0x1167F, "Mongolian Supplement"),
    Block(0x11680, 0x116CF, "Takri"),
    Block(0x11700, 0x1174F, "Ahom"),
    Block(0x11800, 0x1184F, "Dogra")
  ]

  // Rows 230 to 239 (src/unicode/mod.rs:290-299).
  const PART_23: seq<Block> := [
    Block(0x118A0, 0x118FF, "Warang Citi"),
    Block(0x11900, 0x1195F, "Dives Akuru"),
    Block(0x119A0, 0x119FF, "Nandinagari"),
    Block(0x11A00, 0x11A4F, "Zanabazar Square"),
    Block(0x11A50, 0x11AAF, "Soyombo"),
    Block(0x11AB0, 0x11ABF, "Unified Canadian Aboriginal Syllabics Extended-A"),
    Block(0x11AC0, 0x11AFF, "Pau Cin Hau"),
    Block(0x11C00, 0x11C6F, "Bhaiksuki"),
    Block(0x11C70, 0x11CBF, "Marchen"),
    Block(0x11D00, 0x11D5F, "Masaram Gondi")
  ]

  // Rows 240 to 249 (src/unicode/mod.rs:300-309).
  const PART_24: seq<Block> := [
    Block(0x11D60, 0x11DAF, "Gunjala Gondi"),
    Block(0x11EE0, 0x11EFF, "Makasar"),
    Block(0x11FB0, 0x11FBF, "Lisu Supplement"),
    Block(0x11FC0, 0x11FFF, "Tamil Supplement"),
    Block(0x12000, 0x123FF, "Cuneiform"),
    Block(0x12400, 0x1247F, "Cuneiform Numbers and Punctuation"),
    Block(0x12480, 0x1254F, "Early Dynastic Cuneiform"),
    Block(0x12F90, 0x12FFF, "Cypro-Minoan"),
    Block(0x13000, 0x1342F, "Egyptian Hieroglyphs"),
    Block(0x13430, 0x1343F, "Egyptian Hieroglyph Format Controls")
  ]

  // Rows 250 to 259 (src/unicode/mod.rs:310-319).
  const PART_25: seq<Block> := [
    Block(0x14400, 0x1467F, "Anatolian Hieroglyphs"),
    Block(0x16800, 0x16A3F, "Bamum Supplement"),
    Block(0x16A40, 0x16A6F, "Mro"),
    Block(0x16A70, 0x16ACF, "Tangsa"),
    Block(0x16AD0, 0x16AFF, "Bassa Vah"),
    Block(0x16B00, 0x16B8F, "Pahawh Hmong"),
    Block(0x16E40, 0x16E9F, "Medefaidrin"),
    Block(0x16F00, 0x16F9F, "Miao"),
    Block(0x16FE0, 0x16FFF, "Ideographic Symbols and Punctuation"),
    Block(0x17000, 0x187FF, "Tangut")
  ]

  // Rows 260 to 269 (src/unicode/mod.rs:320-329).
  const PART_26: seq<Block> := [
    Block(0x18800, 0x18AFF, "Tangut Components"),
    Block(0x18B00, 0x18CFF, "Khitan Small Script"),
    Block(0x18D00, 0x18D7F, "Tangut Supplement"),
    Block(0x1AFF0, 0x1AFFF, "Kana Extended-B"),
    Block(0x1B000, 0x1B0FF, "Kana Supplement"),
    Block(0x1B100, 0x1B12F, "Kana Extended-A"),
    Block(0x1B130, 0x1B16F, "Small Kana Extension"),
    Block(0x1B170, 0x1B2FF, "Nushu"),
    Block(0x1BC00, 0x1BC9F, "Duployan"),
    Block(0x1BCA0, 0x1BCAF, "Shorthand Format Controls")
  ]

  // Rows 270 to 279 (src/unicode/mod.rs:330-339).
  const PART_27: seq<Block> := [
    Block(0x1CF00, 0x1CFCF, "Znamenny Musical Notation"),
    Block(0x1D000, 0x1D0FF, "Byzantine Musical Symbols"),
    Block(0x1D100, 0x1D1FF, "Musical Symbols"),
    Block(0x1D200, 0x1D24F, "Ancient Greek Musical Notation"),
    Block(0x1D2E0, 0x1D2FF, "Mayan Numerals"),
    Block(0x1D300, 0x1D35F, "Tai Xuan Jing Symbols"),
    Block(0x1D360, 0x1D37F, "Counting Rod Numerals"),
    Block(0x1D400, 0x1D7FF, "Mathematical Alphanumeric Symbols"),
    Block(0x1D800, 0x1DAAF, "Sutton SignWriting"),
    Block(0x1DF00, 0x1DFFF, "Latin Extended-G")
  ]

  // Rows 280 to 289 (src/unicode/mod.rs:340-349).
  const PART_28: seq<Block> := [
    Block(0x1E000, 0x1E02F, "Glagolitic Supplement"),
    Block(0x1E100, 0x1E14F, "Nyiakeng Puachue Hmong"),
    Block(0x1E290, 0x1E2BF, "Toto"),
    Block(0x1E2C0, 0x1E2FF, "Wancho"),
    Block(0x1E7E0, 0x1E7FF, "Ethiopic Extended-B"),
    Block(0x1E800, 0x1E8DF, "Mende Kikakui"),
    Block(0x1E900, 0x1E95F, "Adlam"),
    Block(0x1EC70, 0x1ECBF, "Indic Siyaq Numbers"),
    Block(0x1ED00, 0x1ED4F, "Ottoman Siyaq Numbers"),
    Block(0x1EE00, 0x1EEFF, "Arabic Mathematical Alphabetic Symbols")
  ]

  // Rows 290 to 299 (src/unicode/mod.rs:350-359).
  const PART_29: seq<Block> := [
    Block(0x1F000, 0x1F02F, "Mahjong Tiles"),
    Block(0x1F030, 0x1F09F, "Domino Tiles"),
    Block(0x1F0A0, 0x1F0FF, "Playing Cards"),
    Block(0x1F100, 0x1F1FF, "Enclosed Alphanumeric Supplement"),
    Block(0x1F200, 0x1F2FF, "Enclosed Ideographic Supplement"),
    Block(0x1F300, 0x1F5FF, "Miscellaneous Symbols and Pictographs"),
    Block(0x1F600, 0x1F64F, "Emoticons"),
    Block(0x1F650, 0x1F67F, "Ornamental Dingbats"),
    Block(0x1F680, 0x1F6FF, "Transport and Map Symbols"),
    Block(0x1F700, 0x1F77F, "Alchemical Symbols")
  ]

  // Rows 300 to 309 (src/unicode/mod.rs:360-369).
  const PART_30: seq<Block> := [
    Block(0x1F780, 0x1F7FF, "Geometric Shapes Extended"),
    Block(0x1F800, 0x1F8FF, "Supplemental Arrows-C"),
    Block(0x1F900, 0x1F9FF, "Supplemental Symbols and Pictographs"),
    Block(0x1FA00, 0x1FA6F, "Chess Symbols"),
    Block(0x1FA70, 0x1FAFF, "Symbols and Pictographs Extended-A"),
    Block(0x1FB00, 0x1FBFF, "Symbols for Legacy Computing"),
    Block(0x20000, 0x2A6DF, "CJK Unified Ideographs Extension B"),
    Block(0x2A700, 0x2B73F, "CJK Unified Ideographs Extension C"),
    Block(0x2B740, 0x2B81F, "CJK Unified Ideographs Extension D"),
    Block(0x2B820, 0x2CEAF, "CJK Unified Ideographs Extension E")
  ]

  // Rows 310 to 316 (src/unicode/mod.rs:370-376).
  const PART_31: seq<Block> := [
    Block(0x2CEB0, 0x2EBEF, "CJK Unified Ideographs Extension F"),
    Block(0x2F800, 0x2FA1F, "CJK Compatibility Ideographs Supplement"),
    Block(0x30000, 0x3134F, "CJK Unified Ideographs Extension G"),
    Block(0xE0000, 0xE007F, "Tags"),
    Block(0xE0100, 0xE01EF, "Variation Selectors Supplement"),
    Block(0xF0000, 0xFFFFF, "Supplementary Private Use Area-A"),
    Block(0x100000, 0x10FFFF, "Supplementary Private Use Area-B")
  ]

  // Rows 0 to 79.
  const ROWS_A: seq<Block> := PART_00 + PART_01 + PART_02 + PART_03 + PART_04 + PART_05 + PART_06 + PART_07

  // Rows 80 to 159.
  const ROWS_B: seq<Block> := PART_08 + PART_09 + PART_10 + PART_11 + PART_12 + PART_13 + PART_14 + PART_15

  // Rows 160 to 239.
  const ROWS_C: seq<Block> := PART_16 + PART_17 + PART_18 + PART_19 + PART_20 + PART_21 + PART_22 + PART_23

  // Rows 240 to 316.
  const ROWS_D: seq<Block> := PART_24 + PART_25 + PART_26 + PART_27 + PART_28 + PART_29 + PART_30 + PART_31

  /** The table, in the order the source lists it. The three surrogate rows that
      the source keeps commented out (High Surrogates, High Private Use Surrogates,
      Low Surrogates) are absent here too, between rows 148 and 149. */
  const UNICODE_BLOCKS: seq<Block> := ROWS_A + ROWS_B + ROWS_C + ROWS_D

  lemma Part00WellFormed()
    ensures WellFormed(PART_00) && |PART_00| == 10
    ensures PART_00[0].lo == 0x0000 && PART_00[9].hi == 0x052F
  {
  }

  lemma Part01WellFormed()
    ensures WellFormed(PART_01) && |PART_01| == 10
    ensures PART_01[0].lo == 0x0530 && PART_01[9].hi == 0x086F
  {
  }

  lemma Part02WellFormed()
    ensures WellFormed(PART_02) && |PART_02| == 10
    ensures PART_02[0].lo == 0x0870 && PART_02[9].hi == 0x0CFF
  {
  }

  lemma Part03WellFormed()
    ensures WellFormed(PART_03) && |PART_03| == 10
    ensures PART_03[0].lo == 0x0D00 && PART_03[9].hi == 0x139F
  {
  }

  lemma Part04WellFormed()
    ensures WellFormed(PART_04) && |PART_04| == 10
    ensures PART_04[0].lo == 0x13A0 && PART_04[9].hi == 0x18AF
  {
  }

  lemma Part05WellFormed()
    ensures WellFormed(PART_05) && |PART_05| == 10
    ensures PART_05[0].lo == 0x18B0 && PART_05[9].hi == 0x1BBF
  {
  }

  lemma Part06WellFormed()
    ensures WellFormed(PART_06) && |PART_06| == 10
    ensures PART_06[0].lo == 0x1BC0 && PART_06[9].hi == 0x1DFF
  {
  }

  lemma Part07WellFormed()
    ensures WellFormed(PART_07) && |PART_07| == 10
    ensures PART_07[0].lo == 0x1E00 && PART_07[9].hi == 0x22FF
  {
  }

  lemma Part08WellFormed()
    ensures WellFormed(PART_08) && |PART_08| == 10
    ensures PART_08[0].lo == 0x2300 && PART_08[9].hi == 0x27EF
  {
  }

  lemma Part09WellFormed()
    ensures WellFormed(PART_09) && |PART_09| == 10
    ensures PART_09[0].lo == 0x27F0 && PART_09[9].hi == 0x2D2F
  {
  }

  lemma Part10WellFormed()
    ensures WellFormed(PART_10) && |PART_10| == 10
    ensures PART_10[0].lo == 0x2D30 && PART_10[9].hi == 0x30FF
  {
  }

  lemma Part11WellFormed()
    ensures WellFormed(PART_11) && |PART_11| == 10
    ensures PART_11[0].lo == 0x3100 && PART_11[9].hi == 0x4DFF
  {
  }

  lemma Part12WellFormed()
    ensures WellFormed(PART_12) && |PART_12| == 10
    ensures PART_12[0].lo == 0x4E00 && PART_12[9].hi == 0xA82F
  {
  }

  lemma Part13WellFormed()
    ensures WellFormed(PART_13) && |PART_13| == 10
    ensures PART_13[0].lo == 0xA830 && PART_13[9].hi == 0xAA5F
  {
  }

  lemma Part14WellFormed()
    ensures WellFormed(PART_14) && |PART_14| == 10
    ensures PART_14[0].lo == 0xAA60 && PART_14[9].hi == 0xF8FF
  {
  }

  lemma Part15WellFormed()
    ensures WellFormed(PART_15) && |PART_15| == 10
    ensures PART_15[0].lo == 0xF900 && PART_15[9].hi == 0xFFEF
  {
  }

  lemma Part16WellFormed()
    ensures WellFormed(PART_16) && |PART_16| == 10
    ensures PART_16[0].lo == 0xFFF0 && PART_16[9].hi == 0x102FF
  {
  }

  lemma Part17WellFormed()
    ensures WellFormed(PART_17) && |PART_17| == 10
    ensures PART_17[0].lo == 0x10300 && PART_17[9].hi == 0x1052F
  {
  }

  lemma Part18WellFormed()
    ensures WellFormed(PART_18) && |PART_18| == 10
    ensures PART_18[0].lo == 0x10530 && PART_18[9].hi == 0x1091F
  {
  }

  lemma Part19WellFormed()
    ensures WellFormed(PART_19) && |PART_19| == 10
    ensures PART_19[0].lo == 0x10920 && PART_19[9].hi == 0x10B7F
  {
  }

  lemma Part20WellFormed()
    ensures WellFormed(PART_20) && |PART_20| == 10
    ensures PART_20[0].lo == 0x10B80 && PART_20[9].hi == 0x10FDF
  {
  }

  lemma Part21WellFormed()
    ensures WellFormed(PART_21) && |PART_21| == 10
    ensures PART_21[0].lo == 0x10FE0 && PART_21[9].hi == 0x112AF
  {
  }

  lemma Part22WellFormed()
    ensures WellFormed(PART_22) && |PART_22| == 10
    ensures PART_22[0].lo == 0x112B0 && PART_22[9].hi == 0x1184F
  {
  }

  lemma Part23WellFormed()
    ensures WellFormed(PART_23) && |PART_23| == 10
    ensures PART_23[0].lo == 0x118A0 && PART_23[9].hi == 0x11D5F
  {
  }

  lemma Part24WellFormed()
    ensures WellFormed(PART_24) && |PART_24| == 10
    ensures PART_24[0].lo == 0x11D60 && PART_24[9].hi == 0x1343F
  {
  }

  lemma Part25WellFormed()
    ensures WellFormed(PART_25) && |PART_25| == 10
    ensures PART_25[0].lo == 0x14400 && PART_25[9].hi == 0x187FF
  {
  }

  lemma Part26WellFormed()
    ensures WellFormed(PART_26) && |PART_26| == 10
    ensures PART_26[0].lo == 0x18800 && PART_26[9].hi == 0x1BCAF
  {
  }

  lemma Part27WellFormed()
    ensures WellFormed(PART_27) && |PART_27| == 10
    ensures PART_27[0].lo == 0x1CF00 && PART_27[9].hi == 0x1DFFF
  {
  }

  lemma Part28WellFormed()
    ensures WellFormed(PART_28) && |PART_28| == 10
    ensures PART_28[0].lo == 0x1E000 && PART_28[9].hi == 0x1EEFF
  {
  }

  lemma Part29WellFormed()
    ensures WellFormed(PART_29) && |PART_29| == 10
    ensures PART_29[0].lo == 0x1F000 && PART_29[9].hi == 0x1F77F
  {
  }

  lemma Part30WellFormed()
    ensures WellFormed(PART_30) && |PART_30| == 10
    ensures PART_30[0].lo == 0x1F780 && PART_30[9].hi == 0x2CEAF
  {
  }

  lemma Part31WellFormed()
    ensures WellFormed(PART_31) && |PART_31| == 7
    ensures PART_31[0].lo == 0x2CEB0 && PART_31[6].hi == 0x10FFFF
  {
  }

  lemma RowsAWellFormed()
    ensures WellFormed(ROWS_A) && |ROWS_A| == 80
    ensures ROWS_A[0].lo == 0x0000 && ROWS_A[79].hi == 0x22FF
  {
    Part00WellFormed(); Part01WellFormed(); Part02WellFormed(); Part03WellFormed(); Part04WellFormed(); Part05WellFormed(); Part06WellFormed(); Part07WellFormed();
    var t := PART_00;
    WellFormedAppend(t, PART_01); t := t + PART_01;
    WellFormedAppend(t, PART_02); t := t + PART_02;
    WellFormedAppend(t, PART_03); t := t + PART_03;
    WellFormedAppend(t, PART_04); t := t + PART_04;
    WellFormedAppend(t, PART_05); t := t + PART_05;
    WellFormedAppend(t, PART_06); t := t + PART_06;
    WellFormedAppend(t, PART_07); t := t + PART_07;
    assert t == ROWS_A;
  }

  lemma RowsBWellFormed()
    ensures WellFormed(ROWS_B) && |ROWS_B| == 80
    ensures ROWS_B[0].lo == 0x2300 && ROWS_B[79].hi == 0xFFEF
  {
    Part08WellFormed(); Part09WellFormed(); Part10WellFormed(); Part11WellFormed(); Part12WellFormed(); Part13WellFormed(); Part14WellFormed(); Part15WellFormed();
    var t := PART_08;
    WellFormedAppend(t, PART_09); t := t + PART_09;
    WellFormedAppend(t, PART_10); t := t + PART_10;
    WellFormedAppend(t, PART_11); t := t + PART_11;
    WellFormedAppend(t, PART_12); t := t + PART_12;
    WellFormedAppend(t, PART_13); t := t + PART_13;
    WellFormedAppend(t, PART_14); t := t + PART_14;
    WellFormedAppend(t, PART_15); t := t + PART_15;
    assert t == ROWS_B;
  }

  lemma RowsCWellFormed()
    ensures WellFormed(ROWS_C) && |ROWS_C| == 80
    ensures ROWS_C[0].lo == 0xFFF0 && ROWS_C[79].hi == 0x11D5F
  {
    Part16WellFormed(); Part17WellFormed(); Part18WellFormed(); Part19WellFormed(); Part20WellFormed(); Part21WellFormed(); Part22WellFormed(); Part23WellFormed();
    var t := PART_16;
    WellFormedAppend(t, PART_17); t := t + PART_17;
    WellFormedAppend(t, PART_18); t := t + PART_18;
    WellFormedAppend(t, PART_19); t := t + PART_19;
    WellFormedAppend(t, PART_20); t := t + PART_20;
    WellFormedAppend(t, PART_21); t := t + PART_21;
    WellFormedAppend(t, PART_22); t := t + PART_22;
    WellFormedAppend(t, PART_23); t := t + PART_23;
    assert t == ROWS_C;
  }

  lemma RowsDWellFormed()
    ensures WellFormed(ROWS_D) && |ROWS_D| == 77
    ensures ROWS_D[0].lo == 0x11D60 && ROWS_D[76].hi == 0x10FFFF
  {
    Part24WellFormed(); Part25WellFormed(); Part26WellFormed(); Part27WellFormed(); Part28WellFormed(); Part29WellFormed(); Part30WellFormed(); Part31WellFormed();
    var t := PART_24;
    WellFormedAppend(t, PART_25); t := t + PART_25;
    WellFormedAppend(t, PART_26); t := t + PART_26;
    WellFormedAppend(t, PART_27); t := t + PART_27;
    WellFormedAppend(t, PART_28); t := t + PART_28;
    WellFormedAppend(t, PART_29); t := t + PART_29;
    WellFormedAppend(t, PART_30); t := t + PART_30;
    WellFormedAppend(t, PART_31); t := t + PART_31;
    assert t == ROWS_D;
  }

  /** Every row has `lo <= hi`, and each row ends below the start of the next. */
  lemma TableWellFormed()
    ensures WellFormed(UNICODE_BLOCKS)
    ensures |UNICODE_BLOCKS| == 317
  {
    RowsAWellFormed(); RowsBWellFormed(); RowsCWellFormed(); RowsDWellFormed();
    var t := ROWS_A;
    WellFormedAppend(t, ROWS_B); t := t + ROWS_B;
    WellFormedAppend(t, ROWS_C); t := t + ROWS_C;
    WellFormedAppend(t, ROWS_D); t := t + ROWS_D;
    assert t == UNICODE_BLOCKS;
  }

  /** `CharBlock for u32` (src/unicode/mod.rs:37-51): the index of the block that
      contains `c`, or `None` when `c` lies in a gap, among the surrogates or past
      the last block. */
  function CharBlock(c: u32): (r: Option<nat>)
    ensures r.Some? ==> r.value < |UNICODE_BLOCKS| && Contains(UNICODE_BLOCKS[r.value], c as int)
    ensures r.None? ==> forall i :: 0 <= i < |UNICODE_BLOCKS| ==> !Contains(UNICODE_BLOCKS[i], c as int)
  {
    TableWellFormed();
    Lookup(UNICODE_BLOCKS, c)
  }

  /** `CharBlock for char` (src/unicode/mod.rs:31-35): the character's scalar value
      as a `u32`, looked up as above. */
  function CharBlockOfChar(ch: char): (r: Option<nat>)
    ensures r.Some? ==> r.value < |UNICODE_BLOCKS| && Contains(UNICODE_BLOCKS[r.value], ch as int)
    ensures r.None? ==> forall i :: 0 <= i < |UNICODE_BLOCKS| ==> !Contains(UNICODE_BLOCKS[i], ch as int)
  {
    CharBlock(ch as int as u32)
  }

  /** Every bound in the table is a Unicode scalar value: at most 0x10FFFF and never
      a surrogate. No row reaches into 0xD800..0xDFFF. */
  lemma TableInCodespace()
    ensures forall i :: 0 <= i < |UNICODE_BLOCKS| ==> UNICODE_BLOCKS[i].hi <= 0x10FFFF
    ensures forall i :: 0 <= i < |UNICODE_BLOCKS| ==>
      UNICODE_BLOCKS[i].hi < 0xD800 || 0xDFFF < UNICODE_BLOCKS[i].lo
  {
    assert UNICODE_BLOCKS[148].hi == 0xD7FF && UNICODE_BLOCKS[149].lo == 0xE000;
    assert UNICODE_BLOCKS[316].hi == 0x10FFFF;
    TableWellFormed();
    RowsEndByLast(UNICODE_BLOCKS);
    RowsAvoidGap(UNICODE_BLOCKS, 148);
  }

  /** 0x0000..0x007F is row 0, Basic Latin. */
  lemma BasicLatin()
    ensures forall c: u32 :: c <= 0x7F ==> CharBlock(c) == Some(0)
    ensures UNICODE_BLOCKS[0].name == "Basic Latin"
  {
    TableWellFormed();
    RowRangeResolves(UNICODE_BLOCKS, 0);
  }

  /** U+4E00 is in row 120, CJK Unified Ideographs. */
  lemma CjkUnifiedIdeographs()
    ensures CharBlock(0x4E00) == Some(120)
    ensures UNICODE_BLOCKS[120].name == "CJK Unified Ideographs"
  {
    TableWellFormed();
    LookupFindsContainingRow(UNICODE_BLOCKS, 0x4E00, 120);
  }

  /** U+10FFFF, the last code point, is in the last row, Supplementary Private Use Area-B. */
  lemma LastCodePoint()
    ensures |UNICODE_BLOCKS| == 317 && CharBlock(0x10FFFF) == Some(316)
    ensures UNICODE_BLOCKS[316].name == "Supplementary Private Use Area-B"
  {
    TableWellFormed();
    LookupFindsContainingRow(UNICODE_BLOCKS, 0x10FFFF, 316);
  }

  /** The surrogates 0xD800..0xDFFF fall in the gap between Hangul Jamo Extended-B
      and the Private Use Area, so none of them has a block. */
  lemma SurrogatesHaveNoBlock()
    ensures UNICODE_BLOCKS[148].name == "Hangul Jamo Extended-B"
    ensures UNICODE_BLOCKS[149].name == "Private Use Area"
    ensures forall c: u32 :: 0xD800 <= c <= 0xDFFF ==> CharBlock(c) == None
  {
    TableWellFormed();
    assert UNICODE_BLOCKS[148] == Block(0xD7B0, 0xD7FF, "Hangul Jamo Extended-B");
    assert UNICODE_BLOCKS[149] == Block(0xE000, 0xF8FF, "Private Use Area");
    GapIsNone(UNICODE_BLOCKS, 148);
  }

  /** 0x10200..0x1027F lies between Phaistos Disc and Lycian and has no block. */
  lemma PhaistosLycianGap()
    ensures UNICODE_BLOCKS[166].name == "Phaistos Disc" && UNICODE_BLOCKS[167].name == "Lycian"
    ensures forall c: u32 :: 0x10200 <= c <= 0x1027F ==> CharBlock(c) == None
  {
    TableWellFormed();
    assert UNICODE_BLOCKS[166] == Block(0x101D0, 0x101FF, "Phaistos Disc");
    assert UNICODE_BLOCKS[167] == Block(0x10280, 0x1029F, "Lycian");
    GapIsNone(UNICODE_BLOCKS, 166);
  }

  /** Values past 0x10FFFF are not code points and have no block. */
  lemma BeyondCodespace()
    ensures forall c: u32 :: 0x10FFFF < c ==> CharBlock(c) == None
  {
    TableWellFormed();
    forall c: u32 | 0x10FFFF < c ensures CharBlock(c) == None {
      AboveLastIsNone(UNICODE_BLOCKS, c);
    }
  }

  /** The `char` lookup delegates to the `u32` lookup of the same scalar value, and
      both give what a linear scan of the table gives for that code point. */
  lemma CharBlockOfCharIsScan(ch: char)
    ensures CharBlockOfChar(ch) == CharBlock(ch as int as u32)
    ensures CharBlockOfChar(ch) == Scan(UNICODE_BLOCKS, ch as int)
  {
    TableWellFormed();
    LookupIsScan(UNICODE_BLOCKS, ch as int as u32);
  }
}
