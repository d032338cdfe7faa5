/** Candidate generation of `get_location_coords`: the four query variants
    derived from one region name, and the static Korean-to-English alias
    table that supplies a second query for a candidate. Pure string work. */
module NameCandidates {
  import opened Wrappers
  import opened Json

  /** The administrative suffixes stripped, in the order they are tried:
      city (시), district (구), county (군). */
  const Suffixes: seq<char> := ['시', '구', '군']

  /** The static alias table: a Korean city name to the English name used
      as a secondary geocoding query. */
  const AliasTable: map<string, string> := map[
    "서울" := "Seoul", "부산" := "Busan", "대구" := "Daegu", "광주" := "Gwangju",
    "인천" := "Incheon", "대전" := "Daejeon", "울산" := "Ulsan", "제주" := "Jeju",
    "수원" := "Suwon", "안양" := "Anyang", "창원" := "Changwon", "고양" := "Goyang",
    "용인" := "Yongin", "성남" := "Seongnam", "청주" := "Cheongju", "천안" := "Cheonan",
    "전주" := "Jeonju", "포항" := "Pohang", "김해" := "Gimhae", "평택" := "Pyeongtaek",
    "의정부" := "Uijeongbu", "시흥" := "Siheung", "파주" := "Paju", "구미" := "Gumi",
    "남양주" := "Namyangju", "김포" := "Gimpo", "원주" := "Wonju", "아산" := "Asan",
    "익산" := "Iksan", "경산" := "Gyeongsan", "거제" := "Geoje", "양산" := "Yangsan",
    "제천" := "Jecheon", "홍성" := "Hongseong", "춘천" := "Chuncheon", "강릉" := "Gangneung",
    "목포" := "Mokpo", "여수" := "Yeosu", "순천" := "Suncheon", "군산" := "Gunsan",
    "광명" := "Gwangmyeong", "평창" := "Pyeongchang", "속초" := "Sokcho", "삼척" := "Samcheok",
    "동해" := "Donghae", "태백" := "Taebaek", "정선" := "Jeongseon", "철원" := "Cheorwon",
    "화천" := "Hwacheon", "양구" := "Yanggu", "인제" := "Inje", "고성" := "Goseong",
    "양양" := "Yangyang", "홍천" := "Hongcheon", "횡성" := "Hoengseong", "영월" := "Yeongwol"
  ]

  /** Python's `s.replace(c, '')`: every occurrence of `c` is removed,
      wherever it stands, and the other characters keep their order. */
  function RemoveAll(s: string, c: char): (r: string)
    ensures c !in r
    ensures multiset(r) == multiset(s)[c := 0]
  {
    if s == [] then []
    else
      assert s == [s[0]] + s[1..];
      (if s[0] == c then [] else [s[0]]) + RemoveAll(s[1..], c)
  }

  /** Removing a character changes the string exactly when it occurs in it. */
  lemma {:induction false} RemoveAllIdentity(s: string, c: char)
    ensures RemoveAll(s, c) == s <==> c !in s
  {
    if s != [] {
      RemoveAllIdentity(s[1..], c);
      if c in s {
        assert multiset(RemoveAll(s, c))[c] == 0 < multiset(s)[c];
      }
    }
  }

  /** `RemoveAll` works character by character and keeps the order of the
      survivors: it distributes over concatenation, and a single character
      survives exactly when it is not the one removed. */
  lemma {:induction false} RemoveAllDistributes(a: string, b: string, c: char)
    ensures RemoveAll(a + b, c) == RemoveAll(a, c) + RemoveAll(b, c)
  {
    if a == [] {
      assert a + b == b;
    } else {
      assert (a + b)[0] == a[0] && (a + b)[1..] == a[1..] + b;
      RemoveAllDistributes(a[1..], b, c);
      assert RemoveAll(a + b, c) == (if a[0] == c then [] else [a[0]]) + RemoveAll(a[1..] + b, c);
    }
  }

  /** A single character survives exactly when it is not the one removed. */
  lemma RemoveAllSingle(x: char, c: char)
    ensures RemoveAll([x], c) == if x == c then [] else [x]
  {
    assert [x][1..] == [];
  }

  /** The candidate list: the original name, then the name with every
      occurrence of each suffix removed, in the order of `Suffixes`.
      Duplicates are not removed. */
  function Candidates(regionName: string): (r: seq<string>)
    ensures |r| == 4 && r[0] == regionName
    ensures forall k :: 0 <= k < 3 ==>
      Suffixes[k] !in r[k + 1] && multiset(r[k + 1]) == multiset(regionName)[Suffixes[k] := 0]
    ensures r[1] == RemoveAll(regionName, '시') && r[2] == RemoveAll(regionName, '구') && r[3] == RemoveAll(regionName, '군')
  {
    [regionName,
     RemoveAll(regionName, Suffixes[0]),
     RemoveAll(regionName, Suffixes[1]),
     RemoveAll(regionName, Suffixes[2])]
  }

  /** A name without any of the suffixes yields itself four times. */
  lemma {:induction false} CandidatesKeepDuplicates(regionName: string)
    requires forall k :: 0 <= k < 3 ==> Suffixes[k] !in regionName
    ensures Candidates(regionName) == [regionName, regionName, regionName, regionName]
  {
    RemoveAllIdentity(regionName, Suffixes[0]);
    RemoveAllIdentity(regionName, Suffixes[1]);
    RemoveAllIdentity(regionName, Suffixes[2]);
  }

  /** A suffix character is removed even where it is not a suffix:
      "시흥" (Siheung) becomes "흥" as its city-stripped candidate. */
  lemma {:induction false} SiheungLosesLeadingSi()
    ensures Candidates("시흥") == ["시흥", "흥", "시흥", "시흥"]
  {
    SiheungStripped();
    RemoveAllIdentity("시흥", '구');
    RemoveAllIdentity("시흥", '군');
  }

  lemma {:induction false} SiheungStripped()
    ensures RemoveAll("시흥", '시') == "흥"
  {
    var name := "시흥";
    assert name[1..] == "흥";
    RemoveAllIdentity("흥", '시');
  }

  /** The two query options of one candidate, in the order tried: the
      candidate itself, then its alias when the table has one. */
  function QueryOptions(cand: string): (r: seq<Option<string>>)
    ensures |r| == 2 && r[0] == Some(cand)
    ensures r[1].Some? <==> cand in AliasTable
    ensures r[1].Some? ==> r[1].value == AliasTable[cand]
  {
    [Some(cand), Lookup(AliasTable, cand)]
  }
}
