/**
 * The address classifier: splits a Japanese address into prefecture,
 * municipality and detail.
 *
 * 1. The prefecture is the first entry of a fixed table of the 47
 *    prefecture names that is a prefix of the address, or "" if none is.
 * 2. Every occurrence of that name is deleted from the address.
 * 3. The municipality ends at the first occurrence of the first marker,
 *    tried in the fixed priority 市, 区, 町, 村, that occurs anywhere in the
 *    remainder; the rest, trimmed of white space, is the detail.
 */
module AddressParser {
  import opened Wrappers

  datatype AddressComponents = AddressComponents(prefecture: string, municipality: string, detail: string)

  /* ---------------------------------------------------------------------
   * The prefecture table
   * --------------------------------------------------------------------- */

  /** The prefecture table, one constant per line of the source table. */
  const Row0: seq<string> := ["北海道", "青森県", "岩手県", "宮城県", "秋田県", "山形県", "福島県"]
  const Row1: seq<string> := ["茨城県", "栃木県", "群馬県", "埼玉県", "千葉県", "東京都", "神奈川県"]
  const Row2: seq<string> := ["新潟県", "富山県", "石川県", "福井県", "山梨県", "長野県", "岐阜県"]
  const Row3: seq<string> := ["静岡県", "愛知県", "三重県", "滋賀県", "京都府", "大阪府", "兵庫県"]
  const Row4: seq<string> := ["奈良県", "和歌山県", "鳥取県", "島根県", "岡山県", "広島県", "山口県"]
  const Row5: seq<string> := ["徳島県", "香川県", "愛媛県", "高知県", "福岡県", "佐賀県", "長崎県"]
  const Row6: seq<string> := ["熊本県", "大分県", "宮崎県", "鹿児島県", "沖縄県"]

  /** The 47 prefecture names, in the order they are tried (lines 20-28). */
  const Prefectures: seq<string> := Row0 + Row1 + Row2 + Row3 + Row4 + Row5 + Row6

  /** Code of the first two characters of a name. */
  function HeadCode(first: char, second: char): int {
    first as int * 0x1_0000 + second as int
  }

  /** The table entry whose first two characters have the given code, or
      "": a balanced decision tree over the codes of the 47 entries, used to
      show that two entries never share their first two characters. */
  function NameWithHead(first: char, second: char): string {
    var code := HeadCode(first, second);
    if code < 1629182619 then
      if code < 1538152398 then
        if code < 1396933705 then
          if code < 1330678976 then
            if code < 1319932157 then
              if code == 1309249997 then "三重県" else ""
            else
              if code == 1319932157 then "京都府" else ""
          else
            if code < 1366646443 then
              if code == 1330678976 then "佐賀県" else ""
            else
              if code < 1394044279 then
                if code == 1366646443 then "兵庫県" else ""
              else
                if code == 1394044279 then "北海道" else ""
        else
          if code < 1495749126 then
            if code < 1418488652 then
              if code == 1396933705 then "千葉県" else ""
            else
              if code < 1476162441 then
                if code == 1418488652 then "和歌山県" else ""
              else
                if code == 1476162441 then "埼玉県" else ""
          else
            if code < 1495766570 then
              if code == 1495749126 then "大分県" else ""
            else
              if code < 1497924207 then
                if code == 1495766570 then "大阪府" else ""
              else
                if code == 1497924207 then "奈良県" else ""
      else
        if code < 1552979484 then
          if code < 1550930915 then
            if code < 1538153742 then
              if code == 1538152398 then "宮城県" else ""
            else
              if code < 1540119665 then
                if code == 1538153742 then "宮崎県" else ""
              else
                if code == 1540119665 then "富山県" else ""
          else
            if code < 1550933858 then
              if code == 1550930915 then "山口県" else ""
            else
              if code < 1550936232 then
                if code == 1550933858 then "山形県" else ""
              else
                if code == 1550936232 then "山梨県" else ""
        else
          if code < 1559652409 then
            if code < 1554078833 then
              if code == 1552979484 then "岐阜県" else ""
            else
              if code < 1554604619 then
                if code == 1554078833 then "岡山県" else ""
              else
                if code == 1554604619 then "岩手県" else ""
          else
            if code < 1585667318 then
              if code == 1559652409 then "島根県" else ""
            else
              if code < 1605590262 then
                if code == 1585667318 then "広島県" else ""
              else
                if code == 1605590262 then "徳島県" else ""
    else
      if code < 2039438582 then
        if code < 1858833600 then
          if code < 1735478956 then
            if code < 1629190117 then
              if code == 1629182619 then "愛媛県" else ""
            else
              if code < 1706061663 then
                if code == 1629190117 then "愛知県" else ""
              else
                if code == 1706061663 then "新潟県" else ""
          else
            if code < 1745053480 then
              if code == 1735478956 then "東京都" else ""
            else
              if code < 1821801988 then
                if code == 1745053480 then "栃木県" else ""
              else
                if code == 1821801988 then "沖縄県" else ""
        else
          if code < 2036226376 then
            if code < 1904895788 then
              if code == 1858833600 then "滋賀県" else ""
            else
              if code < 2012437981 then
                if code == 1904895788 then "熊本県" else ""
              else
                if code == 2012437981 then "石川県" else ""
          else
            if code < 2039434901 then
              if code == 2036226376 then "神奈川県" else ""
            else
              if code < 2039438497 then
                if code == 2039434901 then "福井県" else ""
              else
                if code == 2039438497 then "福岡県" else ""
      else
        if code < 2538760430 then
          if code < 2200459214 then
            if code < 2043376944 then
              if code == 2039438582 then "福島県" else ""
            else
              if code < 2141493676 then
                if code == 2043376944 then "秋田県" else ""
              else
                if code == 2141493676 then "群馬県" else ""
          else
            if code < 2507627790 then
              if code == 2200459214 then "茨城県" else ""
            else
              if code < 2507641294 then
                if code == 2507627790 then "長崎県" else ""
              else
                if code == 2507641294 then "長野県" else ""
        else
          if code < 2597877733 then
            if code < 2539216033 then
              if code == 2538760430 then "青森県" else ""
            else
              if code < 2576965085 then
                if code == 2539216033 then "静岡県" else ""
              else
                if code == 2576965085 then "香川県" else ""
          else
            if code < 2632274902 then
              if code == 2597877733 then "高知県" else ""
            else
              if code < 2659144016 then
                if code == 2632274902 then "鳥取県" else ""
              else
                if code == 2659144016 then "鹿児島県" else ""
  }

  lemma RowHeads0()
    ensures forall p :: p in Row0 ==> |p| >= 3 && NameWithHead(p[0], p[1]) == p
  {
    assert NameWithHead('北', '海') == "北海道";
    assert NameWithHead('青', '森') == "青森県";
    assert NameWithHead('岩', '手') == "岩手県";
    assert NameWithHead('宮', '城') == "宮城県";
    assert NameWithHead('秋', '田') == "秋田県";
    assert NameWithHead('山', '形') == "山形県";
    assert NameWithHead('福', '島') == "福島県";
  }

  lemma RowHeads1()
    ensures forall p :: p in Row1 ==> |p| >= 3 && NameWithHead(p[0], p[1]) == p
  {
    assert NameWithHead('茨', '城') == "茨城県";
    assert NameWithHead('栃', '木') == "栃木県";
    assert NameWithHead('群', '馬') == "群馬県";
    assert NameWithHead('埼', '玉') == "埼玉県";
    assert NameWithHead('千', '葉') == "千葉県";
    assert NameWithHead('東', '京') == "東京都";
    assert NameWithHead('神', '奈') == "神奈川県";
  }

  lemma RowHeads2()
    ensures forall p :: p in Row2 ==> |p| >= 3 && NameWithHead(p[0], p[1]) == p
  {
    assert NameWithHead('新', '潟') == "新潟県";
    assert NameWithHead('富', '山') == "富山県";
    assert NameWithHead('石', '川') == "石川県";
    assert NameWithHead('福', '井') == "福井県";
    assert NameWithHead('山', '梨') == "山梨県";
    assert NameWithHead('長', '野') == "長野県";
    assert NameWithHead('岐', '阜') == "岐阜県";
  }

  lemma RowHeads3()
    ensures forall p :: p in Row3 ==> |p| >= 3 && NameWithHead(p[0], p[1]) == p
  {
    assert NameWithHead('静', '岡') == "静岡県";
    assert NameWithHead('愛', '知') == "愛知県";
    assert NameWithHead('三', '重') == "三重県";
    assert NameWithHead('滋', '賀') == "滋賀県";
    assert NameWithHead('京', '都') == "京都府";
    assert NameWithHead('大', '阪') == "大阪府";
    assert NameWithHead('兵', '庫') == "兵庫県";
  }

  lemma RowHeads4()
    ensures forall p :: p in Row4 ==> |p| >= 3 && NameWithHead(p[0], p[1]) == p
  {
    assert NameWithHead('奈', '良') == "奈良県";
    assert NameWithHead('和', '歌') == "和歌山県";
    assert NameWithHead('鳥', '取') == "鳥取県";
    assert NameWithHead('島', '根') == "島根県";
    assert NameWithHead('岡', '山') == "岡山県";
    assert NameWithHead('広', '島') == "広島県";
    assert NameWithHead('山', '口') == "山口県";
  }

  lemma RowHeads5()
    ensures forall p :: p in Row5 ==> |p| >= 3 && NameWithHead(p[0], p[1]) == p
  {
    assert NameWithHead('徳', '島') == "徳島県";
    assert NameWithHead('香', '川') == "香川県";
    assert NameWithHead('愛', '媛') == "愛媛県";
    assert NameWithHead('高', '知') == "高知県";
    assert NameWithHead('福', '岡') == "福岡県";
    assert NameWithHead('佐', '賀') == "佐賀県";
    assert NameWithHead('長', '崎') == "長崎県";
  }

  lemma RowHeads6()
    ensures forall p :: p in Row6 ==> |p| >= 3 && NameWithHead(p[0], p[1]) == p
  {
    assert NameWithHead('熊', '本') == "熊本県";
    assert NameWithHead('大', '分') == "大分県";
    assert NameWithHead('宮', '崎') == "宮崎県";
    assert NameWithHead('鹿', '児') == "鹿児島県";
    assert NameWithHead('沖', '縄') == "沖縄県";
  }

  /** Every entry is at least three characters long and is determined by
      its first two characters. */
  lemma HeadsIdentifyEntries()
    ensures |Prefectures| == 47
    ensures forall p :: p in Prefectures ==> |p| >= 3 && NameWithHead(p[0], p[1]) == p
  {
    RowHeads0(); RowHeads1(); RowHeads2(); RowHeads3(); RowHeads4(); RowHeads5(); RowHeads6();
  }

  /** No entry of the table is a prefix of another entry. */
  lemma PrefecturesPrefixFree()
    ensures forall p, q :: p in Prefectures && q in Prefectures && p <= q ==> p == q
  {
    HeadsIdentifyEntries();
    forall p, q | p in Prefectures && q in Prefectures && p <= q
      ensures p == q
    {
      assert p[0] == q[0] && p[1] == q[1];
    }
  }

  /* ---------------------------------------------------------------------
   * Step 1: first prefix match
   * --------------------------------------------------------------------- */

  /** Index of the first pattern, from `from` on, that is a prefix of
      `address`; `|patterns|` when there is none. */
  function FirstPrefixIndex(address: string, patterns: seq<string>, from: nat): (k: nat)
    requires from <= |patterns|
    ensures from <= k <= |patterns|
    ensures k < |patterns| ==> patterns[k] <= address
    ensures forall j :: from <= j < k ==> !(patterns[j] <= address)
    decreases |patterns| - from
  {
    if from == |patterns| then from
    else if patterns[from] <= address then from
    else FirstPrefixIndex(address, patterns, from + 1)
  }

  /** The prefecture the address starts with, or "" (lines 31-37). */
  function FindPrefecture(address: string): string {
    var k := FirstPrefixIndex(address, Prefectures, 0);
    if k < |Prefectures| then Prefectures[k] else ""
  }

  /** Two prefixes of one string are prefixes of each other. */
  lemma {:induction false} PrefixesAreComparable(a: string, b: string, s: string)
    requires a <= s && b <= s
    ensures a <= b || b <= a
  {
    if |a| <= |b| {
      assert a == s[..|a|] == b[..|a|];
    } else {
      assert b == s[..|b|] == a[..|b|];
    }
  }

  /** An entry the address starts with is the one found. */
  lemma {:induction false} MatchedEntryIsFound(address: string, i: nat)
    requires i < |Prefectures| && Prefectures[i] <= address
    ensures FindPrefecture(address) == Prefectures[i]
  {
    var k := FirstPrefixIndex(address, Prefectures, 0);
    assert k <= i;
    PrefixesAreComparable(Prefectures[k], Prefectures[i], address);
    PrefecturesPrefixFree();
    assert Prefectures[k] in Prefectures && Prefectures[i] in Prefectures;
  }

  /** The prefecture found is the only table entry the address starts
      with, so the order of the table does not matter; and "" is returned
      exactly when no entry is a prefix of the address. */
  lemma {:induction false} PrefectureIsUniqueMatch(address: string)
    ensures FindPrefecture(address) == "" <==> forall p :: p in Prefectures ==> !(p <= address)
    ensures forall p :: p in Prefectures && p <= address ==> FindPrefecture(address) == p
  {
    var k := FirstPrefixIndex(address, Prefectures, 0);
    if k < |Prefectures| {
      EntriesAreNonEmpty();
      assert Prefectures[k] in Prefectures;
    }
    forall p | p in Prefectures && p <= address
      ensures FindPrefecture(address) == p
    {
      var i :| 0 <= i < |Prefectures| && Prefectures[i] == p;
      MatchedEntryIsFound(address, i);
    }
  }

  /** No entry of the table is empty. */
  lemma EntriesAreNonEmpty()
    ensures forall p :: p in Prefectures ==> p != ""
  {
    HeadsIdentifyEntries();
  }

  /* ---------------------------------------------------------------------
   * Step 2: deleting every occurrence of the prefecture name
   * --------------------------------------------------------------------- */

  /** `pattern` occurs somewhere in `s`. */
  predicate OccursIn(pattern: string, s: string) {
    exists i :: 0 <= i <= |s| && pattern <= s[i..]
  }

  /** `s` with every occurrence of `pattern` deleted, scanning left to right
      and resuming after each deleted occurrence
      (`replacingOccurrences(of: pattern, with: "")`). */
  function RemoveAll(s: string, pattern: string): (r: string)
    requires pattern != ""
    ensures |r| <= |s|
    decreases |s|
  {
    if |s| < |pattern| then s
    else if pattern <= s then RemoveAll(s[|pattern|..], pattern)
    else
      assert s == [s[0]] + s[1..];
      [s[0]] + RemoveAll(s[1..], pattern)
  }

  /** Deleting a name that does not occur changes nothing. */
  lemma {:induction false} RemoveAllAbsent(s: string, pattern: string)
    requires pattern != ""
    requires !OccursIn(pattern, s)
    ensures RemoveAll(s, pattern) == s
    decreases |s|
  {
    assert !(pattern <= s[0..]);
    assert s[0..] == s;
    if |s| >= |pattern| {
      OccursInTail(pattern, s);
      RemoveAllAbsent(s[1..], pattern);
    }
  }

  /** An occurrence in the tail of `s` is an occurrence in `s`. */
  lemma {:induction false} OccursInTail(pattern: string, s: string)
    requires s != []
    ensures OccursIn(pattern, s[1..]) ==> OccursIn(pattern, s)
  {
    if OccursIn(pattern, s[1..]) {
      var i :| 0 <= i <= |s[1..]| && pattern <= s[1..][i..];
      assert s[1..][i..] == s[i + 1..];
    }
  }

  /** What is left of the address once its prefecture is known (lines 40-43). */
  function Remainder(address: string, prefecture: string): string {
    if prefecture != "" then RemoveAll(address, prefecture) else address
  }

  /** For an address that names its prefecture only once, at the start, the
      remainder is exactly the text after the name. */
  lemma {:induction false} RemainderOfPlainAddress(address: string)
    requires FindPrefecture(address) != ""
    requires !OccursIn(FindPrefecture(address), address[|FindPrefecture(address)|..])
    ensures Remainder(address, FindPrefecture(address)) == address[|FindPrefecture(address)|..]
  {
    var p := FindPrefecture(address);
    assert p <= address;
    assert |address| >= |p|;
    assert address[0..] == address;
    RemoveAllAbsent(address[|p|..], p);
  }

  /** An occurrence of `pattern` is deleted once the scan reaches it, and
      the text before it, which holds no occurrence starting inside it, is
      kept as it is. */
  lemma {:induction false} RemoveAllStep(a: string, pattern: string, b: string)
    requires pattern != ""
    requires forall i :: 0 <= i < |a| ==> !(pattern <= (a + pattern + b)[i..])
    ensures RemoveAll(a + pattern + b, pattern) == a + RemoveAll(b, pattern)
    decreases |a|
  {
    var s := a + pattern + b;
    if a == [] {
      assert s == pattern + b;
      assert s[|pattern|..] == b;
    } else {
      var t := a[1..] + pattern + b;
      assert s[0..] == s;
      assert s[0] == a[0] && s[1..] == t;
      KeepsUnmatchedHead(s, pattern);
      NoOccurrenceInTail(a, pattern, b);
      RemoveAllStep(a[1..], pattern, b);
      calc {
        RemoveAll(s, pattern);
        [a[0]] + RemoveAll(t, pattern);
        [a[0]] + (a[1..] + RemoveAll(b, pattern));
        { assert a == [a[0]] + a[1..]; }
        a + RemoveAll(b, pattern);
      }
    }
  }

  /** No occurrence starts in `a`, so none starts in its tail. */
  lemma {:induction false} NoOccurrenceInTail(a: string, pattern: string, b: string)
    requires a != []
    requires forall i :: 0 <= i < |a| ==> !(pattern <= (a + pattern + b)[i..])
    ensures forall i :: 0 <= i < |a| - 1 ==> !(pattern <= (a[1..] + pattern + b)[i..])
  {
    var s := a + pattern + b;
    var t := a[1..] + pattern + b;
    forall i | 0 <= i < |a| - 1
      ensures !(pattern <= t[i..])
    {
      assert t[i..] == s[i + 1..];
    }
  }

  /** A first character that does not start an occurrence is kept. */
  lemma KeepsUnmatchedHead(s: string, pattern: string)
    requires pattern != "" && |s| >= |pattern| && !(pattern <= s)
    ensures RemoveAll(s, pattern) == [s[0]] + RemoveAll(s[1..], pattern)
  {
  }

  /** Deleting every occurrence is not the same as leaving no occurrence:
      the address "東京都東京東京都都" is found to be in 東京都, and deleting
      both occurrences of the name joins the pieces around the second one
      into a new 東京都. */
  lemma RemovalCanRejoinName()
    ensures FindPrefecture("東京都東京東京都都") == "東京都"
    ensures Remainder("東京都東京東京都都", "東京都") == "東京都"
    ensures OccursIn("東京都", Remainder("東京都東京東京都都", "東京都"))
  {
    var a := "東京都東京東京都都";
    var p := "東京都";
    assert Prefectures[12] == p;
    assert p <= a;
    MatchedEntryIsFound(a, 12);
    var rest := a[3..];
    assert rest == "東京" + p + "都";
    forall i | 0 <= i < 2
      ensures !(p <= ("東京" + p + "都")[i..])
    {
      assert ("東京" + p + "都")[i..][2] != p[2];
    }
    RemoveAllStep("東京", p, "都");
    assert RemoveAll("都", p) == "都";
    assert a[0..] == a;
    assert RemoveAll(a, p) == RemoveAll(rest, p);
    var r := RemoveAll(a, p);
    assert r == "東京都";
    assert p <= r[0..];
  }

  /* ---------------------------------------------------------------------
   * Step 3: the municipality marker
   * --------------------------------------------------------------------- */

  /** Index of the first occurrence of `c` in `s` (`range(of:)`), if any. */
  function FirstIndex(s: string, c: char): (r: Option<nat>)
    ensures r.None? <==> c !in s
    ensures r.Some? ==> r.value < |s| && s[r.value] == c && c !in s[..r.value]
    decreases |s|
  {
    if |s| == 0 then None
    else if s[0] == c then Some(0)
    else
      match FirstIndex(s[1..], c)
      case None => assert s == [s[0]] + s[1..]; None
      case Some(i) =>
        assert s[..i + 1] == [s[0]] + s[1..][..i];
        Some(i + 1)
  }

  /** The marker the remainder is split at: the first of 市, 区, 町, 村, in
      that priority, that occurs anywhere in it. */
  function ChosenMarker(remainder: string): Option<char> {
    if '市' in remainder then Some('市')
    else if '区' in remainder then Some('区')
    else if '町' in remainder then Some('町')
    else if '村' in remainder then Some('村')
    else None
  }

  /** Cut `s` just after the first occurrence of `c`. */
  function SplitAfter(s: string, c: char): (r: (string, string))
    requires c in s
    ensures r.0 + r.1 == s
    ensures |r.0| > 0 && r.0[|r.0| - 1] == c && c !in r.0[..|r.0| - 1]
  {
    var i := FirstIndex(s, c).value;
    SliceFacts(s, i);
    (s[..i + 1], s[i + 1..])
  }

  /** Cutting after position `i` and gluing back is the identity. */
  lemma {:induction false} SliceFacts(s: string, i: nat)
    requires i < |s|
    ensures s[..i + 1][..i] == s[..i]
    ensures s[..i + 1] + s[i + 1..] == s
  {
  }

  /** Municipality and untrimmed detail of the remainder (lines 46-72). */
  function SplitMunicipality(remainder: string): (r: (string, string))
    ensures r.0 + r.1 == remainder
    ensures ChosenMarker(remainder).None? ==> r.0 == "" && r.1 == remainder
    ensures ChosenMarker(remainder).Some? ==>
      var m := ChosenMarker(remainder).value;
      |r.0| > 0 && r.0[|r.0| - 1] == m && m !in r.0[..|r.0| - 1]
  {
    match ChosenMarker(remainder)
    case None => ("", remainder)
    case Some(m) => SplitAfter(remainder, m)
  }

  /** Marker priority, not leftmost match: when 市 occurs anywhere, the
      municipality runs to its first occurrence, even if a 区, 町 or 村
      comes earlier. A lower marker is used only when every higher one is
      absent. */
  lemma {:induction false} MarkerPriority(remainder: string)
    ensures '市' in remainder ==> SplitMunicipality(remainder).0 == remainder[..FirstIndex(remainder, '市').value + 1]
    ensures '市' !in remainder && '区' in remainder ==>
      SplitMunicipality(remainder).0 == remainder[..FirstIndex(remainder, '区').value + 1]
    ensures '市' !in remainder && '区' !in remainder && '町' in remainder ==>
      SplitMunicipality(remainder).0 == remainder[..FirstIndex(remainder, '町').value + 1]
    ensures '市' !in remainder && '区' !in remainder && '町' !in remainder && '村' in remainder ==>
      SplitMunicipality(remainder).0 == remainder[..FirstIndex(remainder, '村').value + 1]
    ensures SplitMunicipality(remainder).0 == "" <==>
      '市' !in remainder && '区' !in remainder && '町' !in remainder && '村' !in remainder
  {
  }

  /* ---------------------------------------------------------------------
   * Step 4: trimming the detail
   * --------------------------------------------------------------------- */

  /** Members of `.whitespacesAndNewlines`: Unicode space separators, the
      line and paragraph separators, and the controls U+0009 to U+000D and
      U+0085. */
  predicate IsWhitespaceOrNewline(c: char) {
    || ('\U{0009}' <= c <= '\U{000D}') || c == ' ' || c == '\U{0085}' || c == '\U{00A0}'
    || c == '\U{1680}' || ('\U{2000}' <= c <= '\U{200A}') || c == '\U{2028}' || c == '\U{2029}'
    || c == '\U{202F}' || c == '\U{205F}' || c == '\U{3000}'
  }


  /* Trimming is stated over a character class passed as a parameter;
   * `Trim` instantiates it with `.whitespacesAndNewlines`. */

  /** Neither end of `s` belongs to the class. */
  predicate IsTrimmed(s: string, isSpace: char -> bool) {
    s == [] || (!isSpace(s[0]) && !isSpace(s[|s| - 1]))
  }

  /** The first index at or after `from` whose character is outside the
      class, or `|s|` if there is none. */
  function SkipLeading(s: string, isSpace: char -> bool, from: nat): (i: nat)
    requires from <= |s|
    ensures from <= i <= |s|
    ensures forall k :: from <= k < i ==> isSpace(s[k])
    ensures i == |s| || !isSpace(s[i])
    decreases |s| - from
  {
    if from < |s| && isSpace(s[from]) then SkipLeading(s, isSpace, from + 1) else from
  }

  /** The end of `s[lo..hi]` once its trailing characters of the class are
      dropped. */
  function SkipTrailing(s: string, isSpace: char -> bool, lo: nat, hi: nat): (j: nat)
    requires lo <= hi <= |s|
    ensures lo <= j <= hi
    ensures forall k :: j <= k < hi ==> isSpace(s[k])
    ensures j == lo || !isSpace(s[j - 1])
    decreases hi
  {
    if lo < hi && isSpace(s[hi - 1]) then SkipTrailing(s, isSpace, lo, hi - 1) else hi
  }

  /** `s` without its leading and trailing characters of the class. */
  function TrimBoth(s: string, isSpace: char -> bool): string {
    var i := SkipLeading(s, isSpace, 0);
    s[i..SkipTrailing(s, isSpace, i, |s|)]
  }

  /** `trimmingCharacters(in: .whitespacesAndNewlines)`. */
  function Trim(s: string): (r: string)
    ensures IsTrimmed(r, IsWhitespaceOrNewline)
  {
    TrimIsSlice(s, IsWhitespaceOrNewline);
    TrimBoth(s, IsWhitespaceOrNewline)
  }

  /** Trimming keeps the contiguous slice `s[i..j]`, everything outside it
      belongs to the class, and neither end of the slice does. */
  lemma {:induction false} TrimIsSlice(s: string, isSpace: char -> bool)
    ensures var i := SkipLeading(s, isSpace, 0);
      var j := SkipTrailing(s, isSpace, i, |s|);
      TrimBoth(s, isSpace) == s[i..j] &&
      (forall k :: 0 <= k < i ==> isSpace(s[k])) &&
      (forall k :: j <= k < |s| ==> isSpace(s[k])) &&
      IsTrimmed(TrimBoth(s, isSpace), isSpace)
  {
    var i := SkipLeading(s, isSpace, 0);
    var j := SkipTrailing(s, isSpace, i, |s|);
    if i < j {
      assert s[i..j][0] == s[i];
      assert s[i..j][j - i - 1] == s[j - 1];
    }
  }

  /* ---------------------------------------------------------------------
   * The whole parse
   * --------------------------------------------------------------------- */

  /** `parseJapaneseAddress`: total, with "" for every part not found. */
  function ParseJapaneseAddress(address: string): (c: AddressComponents)
    ensures c.prefecture == "" || (c.prefecture in Prefectures && c.prefecture <= address)
    ensures var rem := Remainder(address, c.prefecture);
      exists untrimmed :: c.municipality + untrimmed == rem && c.detail == Trim(untrimmed)
  {
    var prefecture := FindPrefecture(address);
    var remaining := Remainder(address, prefecture);
    var split := SplitMunicipality(remaining);
    AddressComponents(prefecture, split.0, Trim(split.1))
  }

  /** The three parts of a parse: the municipality and the untrimmed detail
      put back together give the remainder, and the detail has no white
      space at either end. */
  lemma {:induction false} ParseParts(address: string)
    ensures var c := ParseJapaneseAddress(address);
      var split := SplitMunicipality(Remainder(address, c.prefecture));
      c.prefecture == FindPrefecture(address) &&
      c.municipality == split.0 && c.municipality + split.1 == Remainder(address, c.prefecture) &&
      c.detail == Trim(split.1) && IsTrimmed(c.detail, IsWhitespaceOrNewline)
  {
    var split := SplitMunicipality(Remainder(address, FindPrefecture(address)));
    TrimIsSlice(split.1, IsWhitespaceOrNewline);
  }

  /** The example address starts with 東京都 and names it only once. */
  lemma {:induction false} ExampleRemainder(a: string)
    requires a == "東京都本町1丁目八王子市元本郷町3"
    ensures FindPrefecture(a) == "東京都"
    ensures Remainder(a, "東京都") == "本町1丁目八王子市元本郷町3"
  {
    assert Prefectures[12] == "東京都";
    assert Prefectures[12] <= a;
    MatchedEntryIsFound(a, 12);
    ExampleRestIsPlain(a[3..]);
    RemainderOfPlainAddress(a);
  }

  /** The example's text after the prefecture holds no 東, so no 東京都. */
  lemma {:induction false} ExampleRestIsPlain(rest: string)
    requires rest == "本町1丁目八王子市元本郷町3"
    ensures !OccursIn("東京都", rest)
  {
    assert '東' !in rest;
    forall i | 0 <= i <= |rest| ensures !("東京都" <= rest[i..]) {
      if i < |rest| { assert rest[i..][0] == rest[i] != '東'; }
    }
  }


  /** The split of the example remainder: 市 is found at index 8. */
  lemma {:induction false} ExampleSplit(rem: string)
    requires rem == "本町1丁目八王子市元本郷町3"
    ensures SplitMunicipality(rem) == ("本町1丁目八王子市", "元本郷町3")
  {
    assert rem[8] == '市';
    assert '市' !in rem[..8];
    assert FirstIndex(rem, '市') == Some(8);
    assert rem[..9] == "本町1丁目八王子市";
    assert rem[9..] == "元本郷町3";
  }

  /** The example detail has no white space to trim. */
  lemma {:induction false} ExampleTrim(d: string)
    requires d == "元本郷町3"
    ensures Trim(d) == d
  {
    assert !IsWhitespaceOrNewline(d[0]);
    assert SkipLeading(d, IsWhitespaceOrNewline, 0) == 0;
    assert !IsWhitespaceOrNewline(d[|d| - 1]);
    assert SkipTrailing(d, IsWhitespaceOrNewline, 0, |d|) == |d|;
  }

  /** A town marker before a city marker: the city marker still wins. */
  lemma TownBeforeCityExample()
    ensures ParseJapaneseAddress("東京都本町1丁目八王子市元本郷町3") ==
      AddressComponents("東京都", "本町1丁目八王子市", "元本郷町3")
  {
    var a := "東京都本町1丁目八王子市元本郷町3";
    ExampleRemainder(a);
    ExampleSplit("本町1丁目八王子市元本郷町3");
    ExampleTrim("元本郷町3");
  }
}
