/** City resolution: turning a chat message, or a caller-supplied city, into a canonical city
    name by table lookups, first-hit substring scans and regular-expression captures. */
module CityExtractor {
  import opened JsCore

  /** A lookup table, in the insertion order of the object literal that defines it
      (`Object.entries` order: none of the keys is an array index). */
  type Table = seq<(string, string)>

  /** The group-1 capture of a city pattern: `capture(i, message)` is the text of group 1 of the
      first match of pattern `i` in `message`, or `None` when the pattern does not match. */
  type Capture = (nat, string) -> Option<string>

  /** Number of entries in `cityPatterns`. */
  const PatternCount: nat := 4

  function Tag(keys: seq<string>, city: string): (t: Table)
    ensures |t| == |keys|
    ensures forall i :: 0 <= i < |t| ==> t[i] == (keys[i], city)
  {
    seq(|keys|, i requires 0 <= i < |keys| => (keys[i], city))
  }

  function Zip(keys: seq<string>, values: seq<string>): (t: Table)
    requires |keys| == |values|
    ensures |t| == |keys|
    ensures forall i :: 0 <= i < |t| ==> t[i] == (keys[i], values[i])
  {
    seq(|keys|, i requires 0 <= i < |keys| => (keys[i], values[i]))
  }

  /** The district keys of `districtMap`, city by city, in romanised and in Japanese spelling. */
  const TokyoRomaji: seq<string> := [
    "shibuya", "shinjuku", "harajuku", "akihabara", "ginza", "roppongi", "ikebukuro", "asakusa",
    "ueno", "omotesando", "aoyama", "ebisu", "daikanyama", "meguro", "setagaya", "shibuya-ku",
    "shinjuku-ku"
  ]

  const TokyoKanji: seq<string> := [
    "渋谷", "新宿", "原宿", "秋葉原", "銀座", "六本木", "池袋", "浅草", "上野", "表参道", "青山",
    "恵比寿", "代官山", "目黒", "世田谷"
  ]

  const OsakaRomaji: seq<string> := ["namba", "dotonbori", "shinsaibashi", "umeda", "tennoji"]

  const OsakaKanji: seq<string> := ["難波", "道頓堀", "心斎橋", "梅田", "天王寺"]

  const KyotoRomaji: seq<string> := ["gion", "arashiyama", "fushimi"]

  const KyotoKanji: seq<string> := ["祇園", "嵐山", "伏見"]

  const TokyoDistricts: seq<string> := TokyoRomaji + TokyoKanji

  const OsakaDistricts: seq<string> := OsakaRomaji + OsakaKanji

  const KyotoDistricts: seq<string> := KyotoRomaji + KyotoKanji

  /** `districtMap`: district -> parent city. */
  const DistrictMap: Table :=
    Tag(TokyoDistricts, "Tokyo") + Tag(OsakaDistricts, "Osaka") + Tag(KyotoDistricts, "Kyoto")

  const JapaneseNames: seq<string> := [
    "東京", "大阪", "京都", "横浜", "札幌", "福岡", "広島", "仙台", "名古屋", "神戸",
    "千葉", "埼玉", "新潟", "静岡", "岡山", "熊本", "鹿児島", "長崎", "青森", "盛岡"
  ]

  const EnglishNames: seq<string> := [
    "Tokyo", "Osaka", "Kyoto", "Yokohama", "Sapporo", "Fukuoka", "Hiroshima", "Sendai", "Nagoya", "Kobe",
    "Chiba", "Saitama", "Niigata", "Shizuoka", "Okayama", "Kumamoto", "Kagoshima", "Nagasaki", "Aomori", "Morioka"
  ]

  /** `japaneseCityMap`: Japanese city name -> English name. */
  const JapaneseCityMap: Table := Zip(JapaneseNames, EnglishNames)

  /** The English names lower-cased (the same words as `commonCities`, which stops after fifteen). */
  const LowerEnglishNames: seq<string> := [
    "tokyo", "osaka", "kyoto", "yokohama", "sapporo", "fukuoka", "hiroshima", "sendai", "nagoya", "kobe",
    "chiba", "saitama", "niigata", "shizuoka", "okayama", "kumamoto", "kagoshima", "nagasaki", "aomori", "morioka"
  ]

  /** `commonCities`, scanned in this order by the last stage. */
  const CommonCities: seq<string> := [
    "tokyo", "osaka", "kyoto", "yokohama", "sapporo",
    "fukuoka", "hiroshima", "sendai", "nagoya", "kobe",
    "chiba", "saitama", "niigata", "shizuoka", "okayama"
  ]

  /** The index of the first element satisfying `p`. */
  function FindFirst<T>(xs: seq<T>, p: T -> bool): (r: Option<nat>)
    ensures r.Some? ==> r.value < |xs| && p(xs[r.value])
    ensures r.Some? ==> forall j :: 0 <= j < r.value ==> !p(xs[j])
    ensures r.None? ==> forall j :: 0 <= j < |xs| ==> !p(xs[j])
  {
    if xs == [] then None
    else if p(xs[0]) then Some(0)
    else match FindFirst(xs[1..], p)
      case None => None
      case Some(i) => Some(i + 1)
  }

  /** `table[key]`: the value of the first entry whose key is `key`. */
  function Lookup(table: Table, key: string): (r: Option<string>)
    ensures r.None? <==> forall i :: 0 <= i < |table| ==> table[i].0 != key
    ensures r.Some? ==> (key, r.value) in table
  {
    match FindFirst(table, (e: (string, string)) => e.0 == key)
    case None => None
    case Some(i) => Some(table[i].1)
  }

  /** Stage 3's test: the message contains the district as typed, or its lower-cased form
      contains the district lower-cased. */
  predicate DistrictIn(trimmed: string, lower: string, district: string) {
    Contains(trimmed, district) || Contains(lower, Lower(district))
  }

  /** Stage 3: the parent city of the first district (in table order) mentioned anywhere. */
  function DistrictScan(trimmed: string, lower: string): (r: Option<string>)
    ensures r.None? <==> forall i :: 0 <= i < |DistrictMap| ==> !DistrictIn(trimmed, lower, DistrictMap[i].0)
    ensures r.Some? ==>
      exists i :: 0 <= i < |DistrictMap| && DistrictIn(trimmed, lower, DistrictMap[i].0) &&
          r.value == DistrictMap[i].1 &&
          forall j :: 0 <= j < i ==> !DistrictIn(trimmed, lower, DistrictMap[j].0)
  {
    match FindFirst(DistrictMap, (e: (string, string)) => DistrictIn(trimmed, lower, e.0))
    case None => None
    case Some(i) => Some(DistrictMap[i].1)
  }

  /** Stage 4: the English name of the first Japanese city name found anywhere in the message. */
  function JapaneseScan(trimmed: string): (r: Option<string>)
    ensures r.None? <==> forall i :: 0 <= i < |JapaneseCityMap| ==> !Contains(trimmed, JapaneseCityMap[i].0)
    ensures r.Some? ==>
      exists i :: 0 <= i < |JapaneseCityMap| && Contains(trimmed, JapaneseCityMap[i].0) &&
          r.value == JapaneseCityMap[i].1 &&
          forall j :: 0 <= j < i ==> !Contains(trimmed, JapaneseCityMap[j].0)
  {
    match FindFirst(JapaneseCityMap, (e: (string, string)) => Contains(trimmed, e.0))
    case None => None
    case Some(i) => Some(JapaneseCityMap[i].1)
  }

  /** Stage 5, for one capture: a district (lower-cased, then as captured), then a Japanese city
      name, else the trimmed capture itself. */
  function ResolveCaptured(captured: string): string {
    var city := Trim(captured);
    match Lookup(DistrictMap, Lower(city))
    case Some(parent) => parent
    case None =>
      match Lookup(DistrictMap, city)
      case Some(parent) => parent
      case None => Lookup(JapaneseCityMap, city).GetOr(city)
  }

  /** Stage 5's loop: the first pattern, from pattern `i` on, that matches with a non-empty group. */
  function FirstPattern(capture: Capture, message: string, i: nat): (r: Option<nat>)
    decreases PatternCount - i
    ensures r.Some? ==> i <= r.value < PatternCount && Truthy(capture(r.value, message))
    ensures r.Some? ==> forall j :: i <= j < r.value ==> !Truthy(capture(j, message))
    ensures r.None? ==> forall j :: i <= j < PatternCount ==> !Truthy(capture(j, message))
  {
    if i >= PatternCount then None
    else if Truthy(capture(i, message)) then Some(i)
    else FirstPattern(capture, message, i + 1)
  }

  /** Stage 5: the capture of the first matching pattern, resolved through the tables. */
  function PatternScan(capture: Capture, message: string): Option<string> {
    match FirstPattern(capture, message, 0)
    case None => None
    case Some(k) => Some(ResolveCaptured(capture(k, message).value))
  }

  /** `city.charAt(0).toUpperCase() + city.slice(1)`. */
  function Capitalize(s: string): (r: string)
    ensures |r| == |s|
    ensures s != [] ==> r[0] == UpperChar(s[0]) && r[1..] == s[1..]
  {
    if s == [] then [] else [UpperChar(s[0])] + s[1..]
  }

  /** Stage 6: the first common city token in the lower-cased message, capitalised. */
  function CommonScan(lower: string): (r: Option<string>)
    ensures r.None? <==> forall i :: 0 <= i < |CommonCities| ==> !Contains(lower, CommonCities[i])
    ensures r.Some? ==>
      exists i :: 0 <= i < |CommonCities| && Contains(lower, CommonCities[i]) &&
          r.value == Capitalize(CommonCities[i]) &&
          forall j :: 0 <= j < i ==> !Contains(lower, CommonCities[j])
  {
    match FindFirst(CommonCities, (c: string) => Contains(lower, c))
    case None => None
    case Some(i) => Some(Capitalize(CommonCities[i]))
  }

  /** `extractCityFromMessage(message)`: the stages in priority order; `None` is `null`. */
  function ExtractCityFromMessage(message: Option<string>, capture: Capture): (r: Option<string>)
    ensures !Truthy(message) ==> r.None?
  {
    if !Truthy(message) then None
    else
      var trimmed := Trim(message.value);
      var lower := Lower(trimmed);
      if Lookup(JapaneseCityMap, trimmed).Some? then Lookup(JapaneseCityMap, trimmed)
      else if Lookup(DistrictMap, trimmed).Some? then Lookup(DistrictMap, trimmed)
      else if Lookup(DistrictMap, lower).Some? then Lookup(DistrictMap, lower)
      else if DistrictScan(trimmed, lower).Some? then DistrictScan(trimmed, lower)
      else if JapaneseScan(trimmed).Some? then JapaneseScan(trimmed)
      else if PatternScan(capture, message.value).Some? then PatternScan(capture, message.value)
      else CommonScan(lower)
  }

  /** `normalizeCityName(city)`: the exact-match stages only, else the trimmed input. */
  function NormalizeCityName(city: Option<string>): (r: Option<string>)
    ensures !Truthy(city) <==> r.None?
  {
    if !Truthy(city) then None
    else
      var trimmed := Trim(city.value);
      match Lookup(JapaneseCityMap, trimmed)
      case Some(english) => Some(english)
      case None =>
        match Lookup(DistrictMap, trimmed)
        case Some(parent) => Some(parent)
        case None => Some(Lookup(DistrictMap, Lower(trimmed)).GetOr(trimmed))
  }

  // ---------------------------------------------------------------------------------------------
  // Facts about the tables

  /** Non-empty, with no white space at either end: `trim` leaves it unchanged. */
  predicate Trimmed(s: string) {
    s != [] && !IsJsSpace(s[0]) && !IsJsSpace(s[|s| - 1])
  }

  /** A name that `normalizeCityName` maps to itself: trimmed, not a Japanese city name, and not a
      district name as written or lower-cased. */
  predicate Canonical(name: string) {
    Trimmed(name) &&
    Lookup(JapaneseCityMap, name).None? && Lookup(DistrictMap, name).None? &&
    Lookup(DistrictMap, Lower(name)).None?
  }

  /** The lower-cased names are the English names lower-cased. */
  lemma LowerName(i: nat)
    requires i < |EnglishNames|
    ensures Lower(EnglishNames[i]) == LowerEnglishNames[i]
  {
    if i < 10 {
      LowerNameFirstHalf(i);
    } else {
      LowerNameSecondHalf(i);
    }
  }

  lemma LowerNameFirstHalf(i: nat)
    requires i < 10
    ensures Lower(EnglishNames[i]) == LowerEnglishNames[i]
  {
    LowerEach(EnglishNames[i], LowerEnglishNames[i]);
  }

  lemma LowerNameSecondHalf(i: nat)
    requires 10 <= i < 20
    ensures Lower(EnglishNames[i]) == LowerEnglishNames[i]
  {
    LowerEach(EnglishNames[i], LowerEnglishNames[i]);
  }

  lemma LowerEach(s: string, l: string)
    requires |s| == |l| && forall j :: 0 <= j < |s| ==> LowerChar(s[j]) == l[j]
    ensures Lower(s) == l
  {
  }

  /** A lower-case ASCII word (the romanised keys and lower-cased names). */
  predicate RomajiWord(k: string) {
    |k| > 0 && 'a' <= k[0] <= 'z' && 'a' <= k[|k| - 1] <= 'z'
  }

  /** A word beginning and ending with a CJK ideograph (the Japanese keys). */
  predicate KanjiWord(k: string) {
    |k| > 0 && '\U{4E00}' <= k[0] <= '\U{9FFF}' && '\U{4E00}' <= k[|k| - 1] <= '\U{9FFF}'
  }

  /** A capitalised ASCII word (the English city names). */
  predicate EnglishWord(k: string) {
    |k| > 0 && 'A' <= k[0] <= 'Z' && 'a' <= k[|k| - 1] <= 'z'
  }

  lemma RomajiShapes()
    ensures forall k :: k in TokyoRomaji ==> RomajiWord(k)
    ensures forall k :: k in OsakaRomaji ==> RomajiWord(k)
    ensures forall k :: k in KyotoRomaji ==> RomajiWord(k)
  {
  }

  lemma LowerShapes()
    ensures forall k :: k in LowerEnglishNames ==> RomajiWord(k)
  {
  }

  lemma KanjiShapes()
    ensures forall k :: k in TokyoKanji ==> KanjiWord(k)
    ensures forall k :: k in OsakaKanji ==> KanjiWord(k)
    ensures forall k :: k in KyotoKanji ==> KanjiWord(k)
  {
  }

  lemma JapaneseShapes()
    ensures forall k :: k in JapaneseNames ==> KanjiWord(k)
  {
  }

  /** No ASCII capital anywhere: lower-casing leaves the text as it is. */
  predicate NoUpper(k: string) {
    forall j :: 0 <= j < |k| ==> !('A' <= k[j] <= 'Z')
  }

  lemma NoUpperLower(k: string)
    requires NoUpper(k)
    ensures Lower(k) == k
  {
    assert forall j :: 0 <= j < |k| ==> Lower(k)[j] == k[j];
  }

  lemma RomajiNoUpper()
    ensures forall k :: k in TokyoRomaji ==> NoUpper(k)
    ensures forall k :: k in OsakaRomaji ==> NoUpper(k)
    ensures forall k :: k in KyotoRomaji ==> NoUpper(k)
  {
    TokyoRomajiNoUpper(0);
    TokyoRomajiNoUpper(9);
    assert TokyoRomaji == TokyoRomaji[0..9] + TokyoRomaji[9..17];
    OsakaKyotoRomajiNoUpper();
  }

  lemma TokyoRomajiNoUpper(from: nat)
    requires from == 0 || from == 9
    ensures forall k :: k in TokyoRomaji[from..if from == 0 then 9 else 17] ==> NoUpper(k)
  {
  }

  lemma OsakaKyotoRomajiNoUpper()
    ensures forall k :: k in OsakaRomaji ==> NoUpper(k)
    ensures forall k :: k in KyotoRomaji ==> NoUpper(k)
  {
  }

  lemma KanjiNoUpper()
    ensures forall k :: k in TokyoKanji ==> NoUpper(k)
    ensures forall k :: k in OsakaKanji ==> NoUpper(k)
    ensures forall k :: k in KyotoKanji ==> NoUpper(k)
    ensures forall k :: k in JapaneseNames ==> NoUpper(k)
  {
    DistrictKanjiNoUpper();
    JapaneseNoUpper();
  }

  lemma DistrictKanjiNoUpper()
    ensures forall k :: k in TokyoKanji ==> NoUpper(k)
    ensures forall k :: k in OsakaKanji ==> NoUpper(k)
    ensures forall k :: k in KyotoKanji ==> NoUpper(k)
  {
  }

  lemma JapaneseNoUpper()
    ensures forall k :: k in JapaneseNames ==> NoUpper(k)
  {
  }

  lemma EnglishShapes()
    ensures forall k :: k in EnglishNames ==> EnglishWord(k)
  {
  }

  lemma JapaneseNotKanji()
    ensures forall i :: 0 <= i < |JapaneseNames| ==>
              JapaneseNames[i] !in TokyoKanji && JapaneseNames[i] !in OsakaKanji &&
              JapaneseNames[i] !in KyotoKanji
  {
  }

  lemma LowerNotRomaji()
    ensures forall i :: 0 <= i < |LowerEnglishNames| ==>
              LowerEnglishNames[i] !in TokyoRomaji && LowerEnglishNames[i] !in OsakaRomaji &&
              LowerEnglishNames[i] !in KyotoRomaji
  {
  }

  lemma JapaneseNamesDistinct()
    ensures forall i, j :: 0 <= j < i < |JapaneseNames| ==> JapaneseNames[j] != JapaneseNames[i]
  {
  }

  lemma OsakaNotTokyo()
    ensures forall k :: k in OsakaDistricts ==> k !in TokyoDistricts
  {
  }

  lemma KyotoNotTokyo()
    ensures forall k :: k in KyotoDistricts ==> k !in TokyoDistricts
  {
  }

  lemma KyotoNotOsaka()
    ensures forall k :: k in KyotoDistricts ==> k !in OsakaDistricts
  {
  }

  /** The first entry with a key decides `Lookup`. */
  lemma LookupAt(table: Table, key: string, i: nat)
    requires i < |table| && table[i].0 == key
    requires forall j :: 0 <= j < i ==> table[j].0 != key
    ensures Lookup(table, key) == Some(table[i].1)
  {
    var p := (e: (string, string)) => e.0 == key;
    var r := FindFirst(table, p);
    assert p(table[i]);
    assert r.Some? && r.value == i;
  }

  /** The words of all three shapes have no white space at either end. */
  lemma WordTrimmed(k: string)
    requires RomajiWord(k) || KanjiWord(k) || EnglishWord(k)
    ensures Trimmed(k) && Trim(k) == k
  {
    WordCharNotSpace(k[0]);
    WordCharNotSpace(k[|k| - 1]);
    TrimFixed(k);
  }

  /** Letters and CJK ideographs are not white space. */
  lemma WordCharNotSpace(c: char)
    requires 'a' <= c <= 'z' || 'A' <= c <= 'Z' || '\U{4E00}' <= c <= '\U{9FFF}'
    ensures !IsJsSpace(c)
  {
  }

  /** Where entry `i` of `districtMap` comes from: its parent city and its key's block. */
  lemma DistrictEntry(i: nat)
    requires i < |DistrictMap|
    ensures i < 32 ==> DistrictMap[i] == (TokyoDistricts[i], "Tokyo")
    ensures 32 <= i < 42 ==> DistrictMap[i] == (OsakaDistricts[i - 32], "Osaka")
    ensures 42 <= i ==> DistrictMap[i] == (KyotoDistricts[i - 42], "Kyoto")
    ensures DistrictMap[i].1 in EnglishNames
  {
  }

  /** The key of entry `i` is a romanised or a Japanese key of one of the three cities. */
  lemma DistrictKeyBlock(i: nat)
    requires i < |DistrictMap|
    ensures var k := DistrictMap[i].0;
      (k in TokyoRomaji || k in OsakaRomaji || k in KyotoRomaji) ||
      (k in TokyoKanji || k in OsakaKanji || k in KyotoKanji)
  {
    DistrictEntry(i);
    if i < 17 {
      assert DistrictMap[i].0 == TokyoRomaji[i];
    } else if i < 32 {
      assert DistrictMap[i].0 == TokyoKanji[i - 17];
    } else if i < 37 {
      assert DistrictMap[i].0 == OsakaRomaji[i - 32];
    } else if i < 42 {
      assert DistrictMap[i].0 == OsakaKanji[i - 37];
    } else if i < 45 {
      assert DistrictMap[i].0 == KyotoRomaji[i - 42];
    } else {
      assert DistrictMap[i].0 == KyotoKanji[i - 45];
    }
  }

  /** No key of `districtMap` belongs to two cities: equal keys have equal parents. */
  lemma DistrictKeysUnambiguous(a: nat, b: nat)
    requires a < |DistrictMap| && b < |DistrictMap|
    requires DistrictMap[a].0 == DistrictMap[b].0
    ensures DistrictMap[a].1 == DistrictMap[b].1
  {
    DistrictEntry(a);
    DistrictEntry(b);
    var k := DistrictMap[a].0;
    if a < 32 && 32 <= b < 42 {
      assert k in TokyoDistricts && k in OsakaDistricts;
      OsakaNotTokyo();
    } else if b < 32 && 32 <= a < 42 {
      assert k in TokyoDistricts && k in OsakaDistricts;
      OsakaNotTokyo();
    } else if a < 32 && 42 <= b {
      assert k in TokyoDistricts && k in KyotoDistricts;
      KyotoNotTokyo();
    } else if b < 32 && 42 <= a {
      assert k in TokyoDistricts && k in KyotoDistricts;
      KyotoNotTokyo();
    } else if 32 <= a < 42 && 42 <= b {
      assert k in OsakaDistricts && k in KyotoDistricts;
      KyotoNotOsaka();
    } else if 32 <= b < 42 && 42 <= a {
      assert k in OsakaDistricts && k in KyotoDistricts;
      KyotoNotOsaka();
    }
  }

  /** Looking up any key of `districtMap` gives that entry's parent city. */
  lemma DistrictLookupAt(i: nat)
    requires i < |DistrictMap|
    ensures Lookup(DistrictMap, DistrictMap[i].0) == Some(DistrictMap[i].1)
  {
    var r := Lookup(DistrictMap, DistrictMap[i].0);
    assert r.Some?;
    var b :| 0 <= b < |DistrictMap| && DistrictMap[b] == (DistrictMap[i].0, r.value);
    DistrictKeysUnambiguous(i, b);
  }

  /** Looking up any Japanese city name gives its English name. */
  lemma JapaneseLookupAt(i: nat)
    requires i < |JapaneseNames|
    ensures Lookup(JapaneseCityMap, JapaneseNames[i]) == Some(EnglishNames[i])
  {
    JapaneseNamesDistinct();
    LookupAt(JapaneseCityMap, JapaneseNames[i], i);
  }

  lemma DistrictKeyShape(i: nat)
    requires i < |DistrictMap|
    ensures RomajiWord(DistrictMap[i].0) || KanjiWord(DistrictMap[i].0)
  {
    DistrictKeyBlock(i);
    RomajiShapes();
    KanjiShapes();
  }

  lemma DistrictKeyNotLowerName(i: nat, l: string)
    requires i < |DistrictMap| && l in LowerEnglishNames
    ensures DistrictMap[i].0 != l
  {
    DistrictKeyBlock(i);
    KanjiShapes();
    LowerShapes();
    LowerNotRomaji();
  }

  lemma DistrictKeyNotJapanese(i: nat, n: string)
    requires i < |DistrictMap| && n in JapaneseNames
    ensures DistrictMap[i].0 != n
  {
    DistrictKeyBlock(i);
    RomajiShapes();
    JapaneseShapes();
    JapaneseNotKanji();
  }

  /** The two tables share no key. */
  lemma DistrictNotJapanese(i: nat)
    requires i < |DistrictMap|
    ensures Lookup(JapaneseCityMap, DistrictMap[i].0).None?
  {
    forall j | 0 <= j < |JapaneseCityMap| ensures JapaneseCityMap[j].0 != DistrictMap[i].0 {
      DistrictKeyNotJapanese(i, JapaneseNames[j]);
    }
  }

  lemma EnglishShape(i: nat)
    requires i < |EnglishNames|
    ensures EnglishWord(EnglishNames[i])
  {
    EnglishShapes();
    assert EnglishNames[i] in EnglishNames;
  }

  lemma JapaneseShape(i: nat)
    requires i < |JapaneseNames|
    ensures KanjiWord(JapaneseNames[i])
  {
    JapaneseShapes();
    assert JapaneseNames[i] in JapaneseNames;
  }

  lemma EnglishNotJapaneseKey(i: nat)
    requires i < |EnglishNames|
    ensures Lookup(JapaneseCityMap, EnglishNames[i]).None?
  {
    EnglishShape(i);
    forall j | 0 <= j < |JapaneseCityMap| ensures JapaneseCityMap[j].0 != EnglishNames[i] {
      JapaneseShape(j);
    }
  }

  lemma EnglishNotDistrictKey(i: nat)
    requires i < |EnglishNames|
    ensures Lookup(DistrictMap, EnglishNames[i]).None?
  {
    EnglishShape(i);
    forall j | 0 <= j < |DistrictMap| ensures DistrictMap[j].0 != EnglishNames[i] {
      DistrictKeyShape(j);
    }
  }

  lemma LowerNameNotDistrictKey(i: nat)
    requires i < |LowerEnglishNames|
    ensures Lookup(DistrictMap, LowerEnglishNames[i]).None?
  {
    forall j | 0 <= j < |DistrictMap| ensures DistrictMap[j].0 != LowerEnglishNames[i] {
      DistrictKeyNotLowerName(j, LowerEnglishNames[i]);
    }
  }

  /** Every English name is a fixed point of `normalizeCityName`: it is not itself a key of
      either table, exactly or lower-cased. */
  lemma EnglishCanonical(i: nat)
    requires i < |EnglishNames|
    ensures Canonical(EnglishNames[i])
  {
    EnglishShape(i);
    WordTrimmed(EnglishNames[i]);
    EnglishNotJapaneseKey(i);
    EnglishNotDistrictKey(i);
    LowerName(i);
    LowerNameNotDistrictKey(i);
  }

  // ---------------------------------------------------------------------------------------------
  // Resolution and normalisation

  /** A message that is exactly a district key (`"shibuya"`, `"祇園"`) resolves to its parent
      city, and so does the same text given to `normalizeCityName`. */
  lemma DistrictKeyResolves(i: nat, capture: Capture)
    requires i < |DistrictMap|
    ensures ExtractCityFromMessage(Some(DistrictMap[i].0), capture) == Some(DistrictMap[i].1)
    ensures NormalizeCityName(Some(DistrictMap[i].0)) == Some(DistrictMap[i].1)
  {
    DistrictKeyShape(i);
    WordTrimmed(DistrictMap[i].0);
    DistrictNotJapanese(i);
    DistrictLookupAt(i);
  }

  /** A message that is exactly a Japanese city name (`"東京"`) resolves to its English name,
      and so does the same text given to `normalizeCityName`. */
  lemma JapaneseNameResolves(i: nat, capture: Capture)
    requires i < |JapaneseNames|
    ensures ExtractCityFromMessage(Some(JapaneseNames[i]), capture) == Some(EnglishNames[i])
    ensures NormalizeCityName(Some(JapaneseNames[i])) == Some(EnglishNames[i])
  {
    JapaneseShape(i);
    WordTrimmed(JapaneseNames[i]);
    JapaneseLookupAt(i);
  }

  /** Any spelling of a district key in any letter case, with any surrounding white space
      (`" SHIBUYA "`), resolves to its parent city, in the message and in `normalizeCityName`:
      lower-casing a Japanese name or a district key changes nothing, so no earlier stage can
      catch the text. */
  lemma DistrictKeyAnyCase(i: nat, message: string, capture: Capture)
    requires i < |DistrictMap|
    requires Lower(Trim(message)) == DistrictMap[i].0
    ensures ExtractCityFromMessage(Some(message), capture) == Some(DistrictMap[i].1)
    ensures NormalizeCityName(Some(message)) == Some(DistrictMap[i].1)
  {
    var t := Trim(message);
    DistrictKeyShape(i);
    DistrictNotJapanese(i);
    DistrictLookupAt(i);
    if Lookup(JapaneseCityMap, t).Some? {
      var j :| 0 <= j < |JapaneseCityMap| && JapaneseCityMap[j] == (t, Lookup(JapaneseCityMap, t).value);
      KanjiNoUpper();
      assert t in JapaneseNames;
      NoUpperLower(t);
      assert false;
    }
    if Lookup(DistrictMap, t).Some? {
      var j :| 0 <= j < |DistrictMap| && DistrictMap[j] == (t, Lookup(DistrictMap, t).value);
      DistrictKeyNoUpper(j);
      NoUpperLower(t);
    }
  }

  lemma DistrictKeyNoUpper(i: nat)
    requires i < |DistrictMap|
    ensures NoUpper(DistrictMap[i].0)
  {
    DistrictKeyBlock(i);
    RomajiNoUpper();
    KanjiNoUpper();
  }

  lemma EnglishValueCanonical(v: string)
    requires v in EnglishNames
    ensures Canonical(v)
  {
    var i :| 0 <= i < |EnglishNames| && EnglishNames[i] == v;
    EnglishCanonical(i);
  }

  /** Every value of either table is an English city name. */
  lemma TableValues(key: string)
    ensures Lookup(JapaneseCityMap, key).Some? ==> Lookup(JapaneseCityMap, key).value in EnglishNames
    ensures Lookup(DistrictMap, key).Some? ==> Lookup(DistrictMap, key).value in EnglishNames
  {
    var r := Lookup(DistrictMap, key);
    if r.Some? {
      var j :| 0 <= j < |DistrictMap| && DistrictMap[j] == (key, r.value);
      DistrictEntry(j);
    }
  }

  /** A trimmed, non-empty text that is not a key of either table is canonical. */
  lemma UnmatchedCanonical(t: string)
    requires t != [] && Trim(t) == t
    requires Lookup(JapaneseCityMap, t).None? && Lookup(DistrictMap, t).None?
    requires Lookup(DistrictMap, Lower(t)).None?
    ensures Canonical(t)
  {
  }

  /** Whatever truthy name `normalizeCityName` returns is canonical. */
  lemma NormalizeCanonical(city: Option<string>)
    requires Truthy(NormalizeCityName(city))
    ensures Canonical(NormalizeCityName(city).value)
  {
    var t := Trim(city.value);
    TableValues(t);
    TableValues(Lower(t));
    var r := NormalizeCityName(city).value;
    if Lookup(JapaneseCityMap, t).Some? || Lookup(DistrictMap, t).Some? ||
       Lookup(DistrictMap, Lower(t)).Some? {
      EnglishValueCanonical(r);
    } else {
      TrimIdempotent(city.value);
      UnmatchedCanonical(t);
    }
  }

  /** A canonical name normalises to itself. */
  lemma CanonicalFixed(v: string)
    requires Canonical(v)
    ensures NormalizeCityName(Some(v)) == Some(v)
  {
    TrimFixed(v);
  }

  /** `normalizeCityName` is idempotent on every input it maps to a truthy name, because no table
      value is itself a key. */
  lemma NormalizeIdempotent(city: Option<string>)
    requires Truthy(NormalizeCityName(city))
    ensures NormalizeCityName(NormalizeCityName(city)) == NormalizeCityName(city)
  {
    NormalizeCanonical(city);
    CanonicalFixed(NormalizeCityName(city).value);
  }

  /** The exception: white space alone normalises to the empty string, which is falsy and
      normalises to `null`. */
  lemma NormalizeBlank(s: string)
    requires s != [] && forall k :: 0 <= k < |s| ==> IsJsSpace(s[k])
    ensures NormalizeCityName(Some(s)) == Some("")
    ensures NormalizeCityName(NormalizeCityName(Some(s))) == None
  {
    var t := Trim(s);
    assert Lower(t) == [];
    assert Lookup(JapaneseCityMap, t).None? by {
      forall j | 0 <= j < |JapaneseCityMap| ensures JapaneseCityMap[j].0 != t {
        JapaneseShape(j);
      }
    }
    assert Lookup(DistrictMap, t).None? by {
      forall j | 0 <= j < |DistrictMap| ensures DistrictMap[j].0 != t {
        DistrictKeyShape(j);
      }
    }
  }

  lemma CapitalizeEach(l: string, e: string)
    requires |l| == |e| > 0 && e[0] == UpperChar(l[0])
    requires forall j :: 1 <= j < |l| ==> l[j] == e[j]
    ensures Capitalize(l) == e
  {
  }

  /** The common-city tokens are the first fifteen lower-cased names, and capitalising one gives
      back the English name. */
  lemma CommonCapitalized(i: nat)
    requires i < |CommonCities|
    ensures CommonCities[i] == LowerEnglishNames[i]
    ensures Capitalize(CommonCities[i]) == EnglishNames[i]
  {
    CapitalizeEach(CommonCities[i], EnglishNames[i]);
  }

  /** Stage 5 yields a table value or its trimmed capture, never any other text. */
  lemma ResolveCapturedCanonical(captured: string)
    ensures var r := ResolveCaptured(captured);
      r in EnglishNames || (r == Trim(captured) && (r == [] || Canonical(r)))
  {
    var t := Trim(captured);
    TableValues(t);
    TableValues(Lower(t));
    if Lookup(DistrictMap, Lower(t)).None? && Lookup(DistrictMap, t).None? &&
       Lookup(JapaneseCityMap, t).None? && t != [] {
      TrimIdempotent(captured);
      UnmatchedCanonical(t);
    }
  }

  /** A truthy city extracted from a message is already canonical, so normalising it again (as
      the chat handler does) changes nothing. */
  lemma ExtractCanonical(message: Option<string>, capture: Capture)
    requires Truthy(ExtractCityFromMessage(message, capture))
    ensures Canonical(ExtractCityFromMessage(message, capture).value)
    ensures NormalizeCityName(ExtractCityFromMessage(message, capture)) ==
            ExtractCityFromMessage(message, capture)
  {
    var r := ExtractCityFromMessage(message, capture).value;
    var trimmed := Trim(message.value);
    var lower := Lower(trimmed);
    TableValues(trimmed);
    TableValues(lower);
    if Lookup(JapaneseCityMap, trimmed).Some? || Lookup(DistrictMap, trimmed).Some? ||
       Lookup(DistrictMap, lower).Some? {
      EnglishValueCanonical(r);
    } else if DistrictScan(trimmed, lower).Some? {
      var i :| 0 <= i < |DistrictMap| && r == DistrictMap[i].1;
      DistrictEntry(i);
      EnglishValueCanonical(r);
    } else if JapaneseScan(trimmed).Some? {
      var i :| 0 <= i < |JapaneseCityMap| && r == JapaneseCityMap[i].1;
      EnglishValueCanonical(r);
    } else if PatternScan(capture, message.value).Some? {
      var k := FirstPattern(capture, message.value, 0).value;
      ResolveCapturedCanonical(capture(k, message.value).value);
      if r in EnglishNames {
        EnglishValueCanonical(r);
      }
    } else {
      var i :| 0 <= i < |CommonCities| && r == Capitalize(CommonCities[i]);
      CommonCapitalized(i);
      EnglishValueCanonical(r);
    }
    CanonicalFixed(r);
  }

  lemma NoRomajiKeyStartsWithB()
    ensures forall k :: k in TokyoRomaji ==> k[0] != 'b'
    ensures forall k :: k in OsakaRomaji ==> k[0] != 'b'
    ensures forall k :: k in KyotoRomaji ==> k[0] != 'b'
  {
  }

  /** "Buenos Aires" is not a key of either table, as written or lower-cased. */
  lemma BuenosAiresNotKey()
    ensures Lookup(JapaneseCityMap, "Buenos Aires").None?
    ensures Lookup(DistrictMap, "Buenos Aires").None?
    ensures Lookup(DistrictMap, Lower("Buenos Aires")).None?
  {
    var m := "Buenos Aires";
    forall j | 0 <= j < |JapaneseCityMap| ensures JapaneseCityMap[j].0 != m {
      JapaneseShape(j);
    }
    forall j | 0 <= j < |DistrictMap| ensures DistrictMap[j].0 != m {
      DistrictKeyShape(j);
    }
    var lower := Lower(m);
    assert lower[0] == 'b';
    forall j | 0 <= j < |DistrictMap| ensures DistrictMap[j].0 != lower {
      DistrictKeyBlock(j);
      KanjiShapes();
      NoRomajiKeyStartsWithB();
    }
  }

  /** Any mention of a Tokyo district scans to Tokyo: every entry before it is a Tokyo district
      too, so whichever district the scan hits first, its parent city is Tokyo. */
  lemma TokyoHit(trimmed: string, lower: string, i: nat)
    requires i < 32 && DistrictIn(trimmed, lower, DistrictMap[i].0)
    ensures DistrictScan(trimmed, lower) == Some("Tokyo")
  {
    var r := DistrictScan(trimmed, lower);
    var h :| 0 <= h < |DistrictMap| && DistrictIn(trimmed, lower, DistrictMap[h].0) &&
      r.value == DistrictMap[h].1 &&
      forall j :: 0 <= j < h ==> !DistrictIn(trimmed, lower, DistrictMap[j].0);
    DistrictEntry(h);
  }

  lemma UenoInBuenosAires()
    ensures Contains("Buenos Aires", DistrictMap[8].0)
  {
    DistrictEntry(8);
    ContainsAt("Buenos Aires", "ueno", 1);
  }

  /** A message that is no key of either table and mentions any Tokyo district resolves to
      Tokyo. */
  lemma ScannedToTokyo(m: string, i: nat, capture: Capture)
    requires m != [] && Trim(m) == m
    requires Lookup(JapaneseCityMap, m).None? && Lookup(DistrictMap, m).None?
    requires Lookup(DistrictMap, Lower(m)).None?
    requires i < 32 && DistrictIn(m, Lower(m), DistrictMap[i].0)
    ensures ExtractCityFromMessage(Some(m), capture) == Some("Tokyo")
  {
    TokyoHit(m, Lower(m), i);
  }

  /** A message that is no key of either table and mentions no district resolves to the English
      name of the first Japanese city name it contains. */
  lemma JapaneseScanned(m: string, i: nat, capture: Capture)
    requires m != [] && Trim(m) == m
    requires Lookup(JapaneseCityMap, m).None? && Lookup(DistrictMap, m).None?
    requires Lookup(DistrictMap, Lower(m)).None?
    requires DistrictScan(m, Lower(m)).None?
    requires i < |JapaneseCityMap| && Contains(m, JapaneseCityMap[i].0)
    requires forall j :: 0 <= j < i ==> !Contains(m, JapaneseCityMap[j].0)
    ensures ExtractCityFromMessage(Some(m), capture) == Some(JapaneseCityMap[i].1)
  {
    JapaneseFirstHit(m, i);
    var trimmed := Trim(Some(m).value);
    assert trimmed == m;
    assert JapaneseScan(trimmed).Some?;
  }

  /** The Japanese-name scan returns the English name of the first Japanese name contained. */
  lemma JapaneseFirstHit(trimmed: string, i: nat)
    requires i < |JapaneseCityMap| && Contains(trimmed, JapaneseCityMap[i].0)
    requires forall j :: 0 <= j < i ==> !Contains(trimmed, JapaneseCityMap[j].0)
    ensures JapaneseScan(trimmed) == Some(JapaneseCityMap[i].1)
  {
    var r := JapaneseScan(trimmed);
    var k :| 0 <= k < |JapaneseCityMap| && Contains(trimmed, JapaneseCityMap[k].0) &&
             r.value == JapaneseCityMap[k].1 &&
             forall j :: 0 <= j < k ==> !Contains(trimmed, JapaneseCityMap[j].0);
    assert k == i;
  }

  /** The district scan runs before the Japanese-city and pattern stages and matches inside
      words: "Buenos Aires" contains "ueno", a Tokyo district. */
  lemma BuenosAiresIsTokyo(message: string, capture: Capture)
    requires message == "Buenos Aires"
    ensures ExtractCityFromMessage(Some(message), capture) == Some("Tokyo")
  {
    TrimFixed(message);
    BuenosAiresNotKey();
    UenoInBuenosAires();
    ScannedToTokyo(message, 8, capture);
  }

  /** The last stage capitalises the first common token the lower-cased message contains. */
  lemma CommonScanOsaka(lower: string)
    requires lower == "osaka"
    ensures CommonScan(lower) == Some("Osaka")
  {
    NotContainsFirst(lower, CommonCities[0]);
    ContainsAt(lower, CommonCities[1], 0);
    CommonCapitalized(1);
  }
}
