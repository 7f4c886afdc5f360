/** The pure helpers of the complaint-intake dialogue: the keyword classifier
    (`analyzeComplaint`), the responsible-agency table (`getAgency`), the
    per-category visit/documents guidance (`guidanceLibrary`) and the summary
    generator (`generateSummary`). */
module Classifier {
  import opened Text

  /** The fallback category when no keyword matches. */
  const Other: string := "기타"

  /** The fallback agency for a category missing from the agency table. */
  const DefaultAgency: string := "민원봉사과"

  /** Categories and their keywords, in declaration order (the order in which
      `Object.entries` visits them). */
  const KeywordTable: seq<(string, seq<string>)> := [
    ("시설", ["가로등", "공원", "시설", "건물", "화장실", "벤치", "놀이터", "도로", "인도"]),
    ("복지", ["복지", "연금", "수당", "지원금", "보조금", "지원"]),
    ("교통", ["버스", "교통", "택시", "정류장", "신호등", "횡단보도"]),
    ("건강", ["병원", "건강", "검진", "의료", "아프", "치료"]),
    ("환경", ["쓰레기", "청소", "소음", "냄새", "환경"]),
    ("안전", ["안전", "위험", "사고", "CCTV"])
  ]

  /** Every value the classifier can return. */
  const Categories: set<string> := {"시설", "복지", "교통", "건강", "환경", "안전", "기타"}

  /** `words.some(word => text.includes(word))`. */
  predicate HasKeyword(text: string, words: seq<string>) {
    exists w :: w in words && Contains(text, w)
  }

  /** Category `i` of the table has a keyword occurring in `text`. */
  predicate MatchesRow(text: string, i: nat)
    requires i < |KeywordTable|
  {
    HasKeyword(text, KeywordTable[i].1)
  }

  /** The first category at or after row `i` having a keyword in `text`, or
      the fallback category when none has. */
  function ClassifyFrom(text: string, i: nat): (r: string)
    requires i <= |KeywordTable|
    ensures r in Categories
    ensures r == Other <==> forall j :: i <= j < |KeywordTable| ==> !MatchesRow(text, j)
    ensures r != Other ==>
      exists j :: i <= j < |KeywordTable| && KeywordTable[j].0 == r && MatchesRow(text, j)
        && forall k :: i <= k < j ==> !MatchesRow(text, k)
    decreases |KeywordTable| - i
  {
    if i == |KeywordTable| then Other
    else if MatchesRow(text, i) then KeywordTable[i].0
    else ClassifyFrom(text, i + 1)
  }

  /** The category `analyzeComplaint` assigns to `text`: the first category, in
      declaration order, with a keyword occurring in `text`; `Other` if none. */
  function Classify(text: string): (r: string)
    ensures r in Categories
    ensures r == Other <==> forall j :: 0 <= j < |KeywordTable| ==> !MatchesRow(text, j)
    ensures r != Other ==>
      exists j :: 0 <= j < |KeywordTable| && KeywordTable[j].0 == r && MatchesRow(text, j)
        && forall k :: 0 <= k < j ==> !MatchesRow(text, k)
  {
    ClassifyFrom(text, 0)
  }

  /** `analyzeComplaint`: scans the table in order and returns at the first
      category with a matching keyword. */
  method AnalyzeComplaint(text: string) returns (category: string)
    ensures category == Classify(text)
  {
    var i := 0;
    while i < |KeywordTable|
      invariant 0 <= i <= |KeywordTable|
      invariant ClassifyFrom(text, i) == Classify(text)
    {
      var (name, words) := KeywordTable[i];
      if HasKeyword(text, words) {
        return name;
      }
      i := i + 1;
    }
    return Other;
  }

  /** A text holding a keyword of row `i` and none of an earlier row is
      classified as row `i`'s category, whatever later rows it also matches. */
  lemma FirstMatchingRowWins(text: string, i: nat)
    requires i < |KeywordTable| && MatchesRow(text, i)
    requires forall k :: 0 <= k < i ==> !MatchesRow(text, k)
    ensures Classify(text) == KeywordTable[i].0
  {
    var r := Classify(text);
    var j :| 0 <= j < |KeywordTable| && KeywordTable[j].0 == r && MatchesRow(text, j)
             && forall k :: 0 <= k < j ==> !MatchesRow(text, k);
    assert j == i;
  }

  /** The hard-coded transcription of the voice path contains "공원" and
      "가로등", both facility keywords, so it is classified as a facility
      complaint. */
  lemma SimulatedTranscriptIsFacility()
    ensures Classify("우리 동네 공원에 가로등이 고장나서 밤에 너무 어두워요. 언제 고칠 수 있을까요?") == "시설"
  {
    var t := "우리 동네 공원에 가로등이 고장나서 밤에 너무 어두워요. 언제 고칠 수 있을까요?";
    assert t[6] == '공' && t[7] == '원';
    assert t[6..8] == "공원";
    assert OccursAt(t, "공원", 6);
    assert "공원" in KeywordTable[0].1;
    assert MatchesRow(t, 0);
    FirstMatchingRowWins(t, 0);
  }

  /** A text naming both a facility keyword and a health keyword resolves to
      the earlier-declared facility category. */
  lemma FacilityBeatsHealth()
    ensures Classify("가로등 옆 병원") == "시설"
  {
    var t := "가로등 옆 병원";
    assert t[0..3] == "가로등";
    assert OccursAt(t, "가로등", 0);
    assert "가로등" in KeywordTable[0].1;
    FirstMatchingRowWins(t, 0);
  }

  // ---------------------------------------------------------------------
  // getAgency

  const AgencyTable: map<string, string> := map[
    "복지" := "복지정책과",
    "교통" := "교통행정과",
    "시설" := "도시관리과",
    "건강" := "보건소",
    "환경" := "환경위생과",
    "안전" := "안전총괄과",
    "기타" := "민원봉사과"
  ]

  /** `getAgency`: the agency of a known category, `DefaultAgency` for any
      other string (`agencies[category] || '민원봉사과'`). */
  function GetAgency(category: string): (r: string)
    ensures r != "" && r in AgencyTable.Values
    ensures category in AgencyTable ==> r == AgencyTable[category]
    ensures category !in AgencyTable ==> r == AgencyTable[Other]
  {
    if category in AgencyTable && AgencyTable[category] != "" then AgencyTable[category]
    else assert AgencyTable[Other] == DefaultAgency; DefaultAgency
  }

  // ---------------------------------------------------------------------
  // guidanceLibrary

  datatype Guidance = Guidance(visit: string, documents: string)

  const GuidanceLibrary: map<string, Guidance> := map[
    "시설" := Guidance(
      "시설팀 현장 조사 대상입니다. 파손 위치와 주변 지형을 사진으로 남겨 두시면 조사원이 도착 전에 상황을 파악하는 데 큰 도움이 됩니다. 24시간 이내에 방문 일정을 문자로 안내해 드릴게요.",
      "시설 민원은 고장 위치, 발견 시간, 근처 건물명을 메모해 두시면 접수 즉시 처리 순서를 정할 수 있습니다. 가능한 경우 사진 한 장을 함께 준비해 주세요."),
    "교통" := Guidance(
      "교통 관련 민원 중 안전에 영향을 주는 사안이라 현장 교통정책과 인력이 출동합니다. 차량 통행이 어려운 시간대를 알려 주시면 그 시간대를 피해 점검 일정을 잡겠습니다.",
      "버스나 신호등과 같은 교통 민원은 발생 시간, 노선/차량 번호, 위치 좌표를 기록해 두시면 바로 확인할 수 있습니다."),
    "복지" := Guidance(
      "사회복지 상담이 필요한 사안으로 분류되어 담당 공무원이 가정 방문 일정을 잡을 수 있습니다. 방문을 원하시면 가족이나 보호자와 함께할 수 있는 시간대를 알려 주세요.",
      "복지 민원은 주민등록등본, 수급 증빙 서류, 연락 가능한 보호자 정보를 준비해 두시면 빠르게 검토할 수 있습니다."),
    "환경" := Guidance(
      "환경오염 현장을 직접 확인해야 하는 유형입니다. 사진이나 동영상을 확보하셨다면 함께 전달해 주세요. 담당 조사원이 채증 도구를 준비해 출동합니다.",
      "환경 민원은 발생 위치, 빈도, 냄새/소음 정도를 기록해 두시면 행정처리 시점이 앞당겨집니다."),
    "건강" := Guidance(
      "건강 관련 민원 중 긴급 검진이 필요한 사안으로 분류되어 보건소 방문이나 가정 방문 검진을 안내해 드릴 수 있습니다. 증상이 심해지면 129 또는 119에 즉시 연락하시기 바랍니다.",
      "건강 민원은 진료 기록, 복용 중인 약, 증상이 시작된 시각 등을 메모해 두면 담당 보건소에서 빠르게 대응할 수 있습니다."),
    "안전" := Guidance(
      "안전 민원으로 분류되어 즉시 현장 점검이 필요합니다. 위험 구역에는 접근하지 마시고, 임시 조치가 필요하면 112 또는 119와도 연계해 드릴 수 있습니다.",
      "안전 민원 접수 시 연락 가능한 번호와 목격자 정보를 남겨 두시면 조치 결과를 빠르게 공유받을 수 있습니다."),
    "기타" := Guidance(
      "현장 확인이 필요한 유형으로 분류했습니다. 해당 부서 조사원이 방문할 수 있도록 시간과 장소를 다시 한 번 확인해 주세요.",
      "추가 자료가 있다면 사진이나 문서를 준비해 두시면 담당자가 확인하기 좋습니다.")
  ]

  /** The guidance text chosen at the field-requirement step: the category's
      library entry (the fallback category's entry when it has none), its
      visit text when a visit is required and its documents text otherwise. */
  function GuidanceFor(category: string, requiresVisit: bool): (r: string)
    ensures r != ""
    ensures var entry := if category in GuidanceLibrary then GuidanceLibrary[category]
                         else GuidanceLibrary[Other];
            && (requiresVisit ==> r == entry.visit)
            && (!requiresVisit ==> r == entry.documents)
  {
    var entry := if category in GuidanceLibrary then GuidanceLibrary[category]
                 else GuidanceLibrary[Other];
    if requiresVisit then entry.visit else entry.documents
  }

  /** Every library entry has distinct visit and documents texts, so the
      guidance given determines the visit answer; a category without an
      entry gets the fallback category's texts. */
  lemma GuidanceDeterminesVisit(category: string)
    ensures GuidanceFor(category, true) != GuidanceFor(category, false)
    ensures category !in GuidanceLibrary ==>
            forall v :: GuidanceFor(category, v) == GuidanceFor(Other, v)
  {
    var entry := if category in GuidanceLibrary then GuidanceLibrary[category]
                 else GuidanceLibrary[Other];
    assert |entry.visit| != |entry.documents|;
  }

  /** Every classifier output has its own row in the agency table and in the
      guidance library, so neither lookup falls back for it. */
  lemma ClassifiedCategoryIsKnown(text: string)
    ensures Classify(text) in AgencyTable
    ensures Classify(text) in GuidanceLibrary
    ensures GetAgency(Classify(text)) == AgencyTable[Classify(text)]
  {
    var c := Classify(text);
    assert c in Categories;
    if c == "시설" {} else if c == "복지" {} else if c == "교통" {}
    else if c == "건강" {} else if c == "환경" {} else if c == "안전" {}
    else { assert c == Other; }
  }

  // ---------------------------------------------------------------------
  // generateSummary

  /** At most this many space-separated tokens are kept. */
  const MaxSummaryWords: nat := 20

  function Min(a: nat, b: nat): nat { if a <= b then a else b }

  /** The text summarised: `mainText`, followed by a space and
      `additionalText` when the latter is non-empty. */
  function Combine(mainText: string, additionalText: string): (r: string)
    ensures Split(r) == if additionalText == "" then Split(mainText)
                        else Split(mainText) + Split(additionalText)
  {
    if additionalText != "" then
      SplitAroundSpace(mainText, additionalText);
      mainText + " " + additionalText
    else mainText
  }

  /** The category label that opens every summary. */
  function SummaryPrefix(category: string): string {
    category + " 관련하여 "
  }

  /** `generateSummary`: the category prefix, then the first (at most 20)
      space-separated tokens of the combined text, then "..." exactly when
      tokens were dropped. */
  function GenerateSummary(mainText: string, additionalText: string, category: string): (r: string)
    ensures
      var words := Split(Combine(mainText, additionalText));
      var prefix := SummaryPrefix(category);
      var ellipsis := if |words| > MaxSummaryWords then "..." else "";
      && |prefix| + |ellipsis| <= |r|
      && r[..|prefix|] == prefix
      && r[|r| - |ellipsis|..] == ellipsis
      && Split(r[|prefix|..|r| - |ellipsis|]) == words[..Min(MaxSummaryWords, |words|)]
  {
    var words := Split(Combine(mainText, additionalText));
    var kept := words[..Min(MaxSummaryWords, |words|)];
    var body := Join(kept);
    var ellipsis := if |words| > MaxSummaryWords then "..." else "";
    SplitJoin(kept);
    var r := SummaryPrefix(category) + body + ellipsis;
    assert r[|SummaryPrefix(category)|..|r| - |ellipsis|] == body;
    r
  }

  /** A text of at most 20 tokens is kept verbatim after the prefix, with no
      ellipsis; with no additional text, that text is `mainText` itself. */
  lemma ShortSummaryKeepsText(mainText: string, additionalText: string, category: string)
    requires |Split(Combine(mainText, additionalText))| <= MaxSummaryWords
    ensures GenerateSummary(mainText, additionalText, category)
            == SummaryPrefix(category) + Combine(mainText, additionalText)
    ensures additionalText == "" ==>
            GenerateSummary(mainText, additionalText, category) == SummaryPrefix(category) + mainText
  {
    var combined := Combine(mainText, additionalText);
    var words := Split(combined);
    JoinSplit(combined);
    assert words[..Min(MaxSummaryWords, |words|)] == words;
  }

  /** A text of more than 20 tokens is cut just before its 20th space: the
      kept body is a prefix of the text, followed there by a space, and holds
      exactly 20 tokens; "..." follows it. */
  lemma LongSummaryTruncates(mainText: string, additionalText: string, category: string)
    requires |Split(Combine(mainText, additionalText))| > MaxSummaryWords
    ensures
      var combined := Combine(mainText, additionalText);
      var body := Join(Split(combined)[..MaxSummaryWords]);
      && GenerateSummary(mainText, additionalText, category) == SummaryPrefix(category) + body + "..."
      && body + " " <= combined
      && |Split(body)| == MaxSummaryWords
      && CountSpaces(body) == MaxSummaryWords - 1
  {
    var combined := Combine(mainText, additionalText);
    var words := Split(combined);
    var body := Join(words[..MaxSummaryWords]);
    var r := GenerateSummary(mainText, additionalText, category);
    JoinSplit(combined);
    JoinPrefix(words, MaxSummaryWords);
    assert combined == body + " " + Join(words[MaxSummaryWords..]);
    assert (body + " ") <= combined;
    SplitJoin(words[..MaxSummaryWords]);
    SplitLength(body);
    assert |r| == |SummaryPrefix(category)| + |body| + 3;
    assert r[..|SummaryPrefix(category)|] == SummaryPrefix(category);
    assert r[|r| - 3..] == "...";
    assert r == r[..|SummaryPrefix(category)|] + r[|SummaryPrefix(category)|..|r| - 3] + r[|r| - 3..];
    assert Split(r[|SummaryPrefix(category)|..|r| - 3]) == Split(body);
    assert r[|SummaryPrefix(category)|..|r| - 3] == body by {
      JoinSplit(r[|SummaryPrefix(category)|..|r| - 3]);
      JoinSplit(body);
    }
  }
}
