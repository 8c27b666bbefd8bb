/** The table `DATA` of the travel page (main.py): for each of the 16
    MBTI types its travel style, three destinations and five activities.
    The free-text description is shown only by the page and is left out;
    latitude and longitude are kept as whole numbers of ten-thousandths of
    a degree (every coordinate in the table has at most four decimals). */
module TravelData {
  import opened Ranking

  /** `(city, country, lat, lon)`; the coordinates are only passed along. */
  datatype Destination = Destination(city: string, country: string, lat: int, lon: int)

  datatype Profile = Profile(style: string, destinations: seq<Destination>, activities: seq<string>)

  /** The keys of `DATA` in declaration order. */
  const MbtiOrder: seq<string> := [
    "INTJ", "INTP", "ENTJ", "ENTP", "INFJ", "INFP", "ENFJ", "ENFP",
    "ISTJ", "ISFJ", "ESTJ", "ESFJ", "ISTP", "ISFP", "ESTP", "ESFP"
  ]

  const Data: map<string, Profile> := map[
    "INTJ" := Profile("조용하고 깊이 있는 문화 탐방",
      [Destination("교토", "일본", 350116, 1357681),
       Destination("프라하", "체코", 500755, 144378),
       Destination("피렌체", "이탈리아", 437696, 112558)],
      ["현지 서점·전통 찻집에서 사색", "건축 투어 및 박물관 관람", "한적한 골목 사진 산책", "사원/성당의 아침 방문", "클래식 공연 감상"]),
    "INTP" := Profile("지적 호기심 충족, 차분한 도시 산책",
      [Destination("탈린", "에스토니아", 594370, 247536),
       Destination("케임브리지", "영국", 522053, 1218),
       Destination("취리히", "스위스", 473769, 85417)],
      ["대학 캠퍼스/박물관 탐방", "과학·기술 전시 관람", "강변 산책과 스케치", "현지 카페에서 독서", "현지 도서관·아카이브 체험"]),
    "ENTJ" := Profile("효율적인 도시 정복, 비즈·모던 컬처",
      [Destination("싱가포르", "싱가포르", 13521, 1038198),
       Destination("뉴욕", "미국", 407128, -740060),
       Destination("베를린", "독일", 525200, 134050)],
      ["주요 랜드마크 전광석화 투어", "루프탑/미쉐린 미식", "현대미술관·전시 관람", "야경 스카이라인 감상", "효율 루트 지하철 마스터"]),
    "ENTP" := Profile("새로움·아이디어 폭발, 트렌디 실험",
      [Destination("도쿄", "일본", 356762, 1396503),
       Destination("텔아비브", "이스라엘", 320853, 347818),
       Destination("샌프란시스코", "미국", 377749, -1224194)],
      ["스타트업 거리/메이커스페이스 방문", "이색 테마 카페 투어", "언더그라운드 전시/공연", "골목 상점 탐험", "현지인 토론 모임·밋업"]),
    "INFJ" := Profile("영감을 주는 고요함, 풍경·사색",
      [Destination("산토리니", "그리스", 363932, 254615),
       Destination("레이캬비크", "아이슬란드", 641466, -219426),
       Destination("블레드호", "슬로베니아", 463692, 141136)],
      ["일출/일몰 명소 사색", "자연 속 명상 산책", "현지 예술가 갤러리 방문", "온천/스파 힐링", "작은 마을 책방 찾기"]),
    "INFP" := Profile("감성 충만 스토리 여행",
      [Destination("에든버러", "영국", 559533, -31883),
       Destination("류블랴나", "슬로베니아", 460569, 145058),
       Destination("치앙마이", "태국", 187883, 989853)],
      ["문학 명소·중고서점 투어", "수공예 워크숍 체험", "현지 카페·디저트 성지순례", "골목 사진 산책", "자선 마켓/커뮤니티 방문"]),
    "ENFJ" := Profile("사람 중심, 따뜻한 도시 경험",
      [Destination("서울", "대한민국", 375665, 1269780),
       Destination("밴쿠버", "캐나다", 492827, -1231207),
       Destination("코펜하겐", "덴마크", 556761, 125683)],
      ["로컬 마켓·플리마켓 탐방", "커뮤니티 센터 프로그램 참여", "도시 공원 피크닉", "사회적기업 카페 방문", "디자인/건축 투어"]),
    "ENFP" := Profile("활발한 체험 + 다문화 교류",
      [Destination("바르셀로나", "스페인", 413851, 21734),
       Destination("방콕", "태국", 137563, 1005018),
       Destination("리우데자네이루", "브라질", -229068, -431729)],
      ["길거리 공연/축제 즐기기", "현지 요리 클래스", "자유 일정으로 골목 탐험", "비치/루프탑 라운지", "현지 친구 사귀기 미션"]),
    "ISTJ" := Profile("질서정연한 클래식 여행",
      [Destination("빈", "오스트리아", 482082, 163738),
       Destination("뮌헨", "독일", 481351, 115820),
       Destination("코펜하겐", "덴마크", 556761, 125683)],
      ["정시 출발 시티투어", "고전 음악회 감상", "왕궁/궁전 견학", "전통 레스토랑 예약 식사", "유명 박물관 라인업"]),
    "ISFJ" := Profile("아늑·정갈, 동화 같은 도시",
      [Destination("브뤼헤", "벨기에", 512093, 32247),
       Destination("잘츠부르크", "오스트리아", 478095, 130550),
       Destination("퀘벡시티", "캐나다", 468139, -712080)],
      ["마차/운하 보트 체험", "크리스마스/시즌 마켓", "현지 가정식/비스트로", "작은 박물관·공방 방문", "한적한 공원 산책"]),
    "ESTJ" := Profile("탄탄한 랜드마크 중심 대도시",
      [Destination("런던", "영국", 515074, -1278),
       Destination("홍콩", "홍콩", 223193, 1141694),
       Destination("시카고", "미국", 418781, -876298)],
      ["필수 랜드마크 체크", "강력 미식 스폿 예약", "뮤지컬/콘서트 관람", "리버 크루즈", "스카이덱·전망대"]),
    "ESFJ" := Profile("사교적·따뜻한 휴식형 도시",
      [Destination("파리", "프랑스", 488566, 23522),
       Destination("시드니", "호주", -338688, 1512093),
       Destination("타이베이", "대만", 250330, 1215654)],
      ["브런치 카페·마카롱 투어", "아이코닉 포토스팟", "강변/해변 산책", "플리마켓·백화점 쇼핑", "야간 라이트업 명소"]),
    "ISTP" := Profile("자연·액티비티 중심",
      [Destination("퀸스타운", "뉴질랜드", -450312, 1686626),
       Destination("인터라켄", "스위스", 466863, 78632),
       Destination("트롬쇠", "노르웨이", 696492, 189553)],
      ["하이킹/패러글라이딩", "빙하·호수 투어", "오로라/별 보기", "자전거/카약", "산악 열차 타기"]),
    "ISFP" := Profile("예술감성·자연 치료",
      [Destination("우붓", "인도네시아 발리", -85069, 1152625),
       Destination("리스본", "포르투갈", 387223, -91393),
       Destination("호이안", "베트남", 158801, 1083380)],
      ["요가/명상 리트릿", "현지 공예 워크숍", "해변 일몰 감상", "소규모 라이브 공연", "전통시장 미식"]),
    "ESTP" := Profile("스릴·놀이·이벤트",
      [Destination("라스베이거스", "미국", 361699, -1151398),
       Destination("두바이", "아랍에미리트", 252048, 552708),
       Destination("칸쿤", "멕시코", 211619, -868515)],
      ["테마파크/쇼 관람", "사막 사파리/샌드보딩", "요트/스노클링", "루프탑·클럽", "슈퍼카 체험"]),
    "ESFP" := Profile("축제·비치·포토 스팟",
      [Destination("마이애미", "미국", 257617, -801918),
       Destination("이비자", "스페인", 389067, 14206),
       Destination("푸켓", "태국", 78804, 983923)],
      ["해변 액티비티", "선셋 크루즈", "나이트 라이프", "인생샷 스팟 투어", "해산물 미식"])
  ]

  /** `DATA` has 16 distinct keys, listed by `MbtiOrder`. */
  lemma DataKeys()
    ensures |MbtiOrder| == 16 && Distinct(MbtiOrder)
    ensures Data.Keys == set k | k in MbtiOrder
  {
  }

  /** Every type lists three destinations and five activities. */
  lemma DataSizes()
    ensures forall k :: k in Data ==> |Data[k].destinations| == 3 && |Data[k].activities| == 5
  {
  }

  /** A type whose destinations and activities are each listed once. */
  predicate NoRepeats(k: string)
    requires k in Data
  {
    Distinct(Data[k].destinations) && Distinct(Data[k].activities)
  }

  lemma NoRepeatsINTJ()
    ensures "INTJ" in Data && NoRepeats("INTJ")
  {
  }

  lemma NoRepeatsINTP()
    ensures "INTP" in Data && NoRepeats("INTP")
  {
  }

  lemma NoRepeatsENTJ()
    ensures "ENTJ" in Data && NoRepeats("ENTJ")
  {
  }

  lemma NoRepeatsENTP()
    ensures "ENTP" in Data && NoRepeats("ENTP")
  {
  }

  lemma NoRepeatsINFJ()
    ensures "INFJ" in Data && NoRepeats("INFJ")
  {
  }

  lemma NoRepeatsINFP()
    ensures "INFP" in Data && NoRepeats("INFP")
  {
  }

  lemma NoRepeatsENFJ()
    ensures "ENFJ" in Data && NoRepeats("ENFJ")
  {
  }

  lemma NoRepeatsENFP()
    ensures "ENFP" in Data && NoRepeats("ENFP")
  {
  }

  lemma NoRepeatsISTJ()
    ensures "ISTJ" in Data && NoRepeats("ISTJ")
  {
  }

  lemma NoRepeatsISFJ()
    ensures "ISFJ" in Data && NoRepeats("ISFJ")
  {
  }

  lemma NoRepeatsESTJ()
    ensures "ESTJ" in Data && NoRepeats("ESTJ")
  {
  }

  lemma NoRepeatsESFJ()
    ensures "ESFJ" in Data && NoRepeats("ESFJ")
  {
  }

  lemma NoRepeatsISTP()
    ensures "ISTP" in Data && NoRepeats("ISTP")
  {
  }

  lemma NoRepeatsISFP()
    ensures "ISFP" in Data && NoRepeats("ISFP")
  {
  }

  lemma NoRepeatsESTP()
    ensures "ESTP" in Data && NoRepeats("ESTP")
  {
  }

  lemma NoRepeatsESFP()
    ensures "ESFP" in Data && NoRepeats("ESFP")
  {
  }

  /** No type lists a destination or an activity twice. */
  lemma DataDistinct()
    ensures forall k :: k in Data ==> Distinct(Data[k].destinations) && Distinct(Data[k].activities)
  {
    DataKeys();
    NoRepeatsINTJ();
    NoRepeatsINTP();
    NoRepeatsENTJ();
    NoRepeatsENTP();
    NoRepeatsINFJ();
    NoRepeatsINFP();
    NoRepeatsENFJ();
    NoRepeatsENFP();
    NoRepeatsISTJ();
    NoRepeatsISFJ();
    NoRepeatsESTJ();
    NoRepeatsESFJ();
    NoRepeatsISTP();
    NoRepeatsISFP();
    NoRepeatsESTP();
    NoRepeatsESFP();
    forall k | k in Data ensures NoRepeats(k) {
      assert k in MbtiOrder;
    }
  }
}
