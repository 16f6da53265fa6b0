/**
 * The two built-in novels of `constants.ts`: the demo story and the empty template. Long
 * texts are written as short literals joined by `+`; each joined text is the original one.
 */
module Fixtures {
  import opened Wrappers
  import opened Model

  function Hero(): Character
  {
    Character("char_hero", "용감한 기사", [
      Expression("char_hero_neutral", "중립", "https://" + "picsum.photos/" + "seed/" + "vn-hero-neutral/" + "400/600"),
      Expression("char_hero_happy", "행복", "https://" + "picsum.photos/" + "seed/" + "vn-hero-happy/" + "400/600"),
      Expression("char_hero_sad", "슬픔", "https://" + "picsum.photos/" + "seed/" + "vn-hero-sad/" + "400/600"),
      Expression("char_hero_angry", "화남", "https://" + "picsum.photos/" + "seed/" + "vn-hero-angry/" + "400/600")],
      Some("빛나는 갑옷을 " + "입고 결연한 " + "표정을 짓고 있는 " + "판타지 세계의 " + "용감한 기사."))
  }

  function Dragon(): Character
  {
    Character("char_dragon", "용 스파키", [
      Expression("char_dragon_neutral", "중립", "https://" + "picsum.photos/" + "seed/" + "vn-dragon-neutral/" + "400/600"),
      Expression("char_dragon_happy", "행복", "https://" + "picsum.photos/" + "seed/" + "vn-dragon-happy/" + "400/600"),
      Expression("char_dragon_sad", "슬픔", "https://" + "picsum.photos/" + "seed/" + "vn-dragon-sad/" + "400/600"),
      Expression("char_dragon_angry", "화남", "https://" + "picsum.photos/" + "seed/" + "vn-dragon-angry/" + "400/600")],
      Some("반짝이는 비늘과 " + "장난기 넘치는 " + "눈을 가진 작고 " + "친근한 용."))
  }

  function CaveEntrance(): Scene
  {
    Scene("scene_1", "동굴 입구", "https://" + "picsum.photos/" + "seed/" + "vn-cave/" + "1280/720", [],
      [DialogueLine(None, None, "당신은 어둡고 " + "불길한 동굴 앞에 " + "서 있습니다. " + "낡은 표지판에는 " + "'용 출몰 " + "지역!'이라고 " + "쓰여 있습니다. " + "다음 행동은?")],
      [Choice("용감하게 동굴로 " + "들어간다.", "scene_2"),
       Choice("이건 좋지 않은 " + "생각이라고 " + "판단하고 집으로 " + "돌아간다.", "scene_4")],
      Some("영웅이 용의 " + "동굴의 어둡고 " + "불길한 입구 앞에 " + "서 있다. " + "근처에는 낡은 " + "경고 표지판이 " + "붙어 있다."))
  }

  function InsideCave(): Scene
  {
    Scene("scene_2", "동굴 안", "https://" + "picsum.photos/" + "seed/" + "vn-inside-cave/" + "1280/720", ["char_hero", "char_dragon"],
      [DialogueLine(Some("char_dragon"), Some("char_dragon_happy"), "작고 반짝이는 " + "용이 당신을 " + "쳐다봅니다. " + "'안녕! 난 " + "스파키야! 놀러 " + "온 거야?'라고 " + "삑삑거립니다."),
       DialogueLine(Some("char_hero"), Some("char_hero_neutral"), "용...? 나는 " + "용감한 기사다. " + "내 힘을... " + "시험하러 왔다!"),
       DialogueLine(Some("char_dragon"), Some("char_dragon_neutral"), "오, 게임! 무슨 " + "게임 할 건데?")],
      [Choice("결투를 신청한다!", "scene_3a"),
       Choice("보드게임이 있는지 " + "물어본다.", "scene_3b")],
      Some("보물이 가득한 " + "동굴 안, 용감한 " + "기사가 작고 " + "친근하며 반짝이는 " + "용 스파키와 " + "마주한다."))
  }

  function Duel(): Scene
  {
    Scene("scene_3a", "'결투'", "https://" + "picsum.photos/" + "seed/" + "vn-inside-cave/" + "1280/720", ["char_dragon"],
      [DialogueLine(Some("char_dragon"), Some("char_dragon_happy"), "스파키가 " + "킥킥거리며 " + "당신에게 무해한 " + "비눗방울 하나를 " + "뿜습니다. '네가 " + "이겼어!'라고 " + "지저귑니다. " + "당신은 약간 " + "바보가 된 " + "기분입니다.")],
      [],
      Some("작은 용이 동굴 " + "안에서 기사에게 " + "장난스럽게 무해한 " + "비눗방울 하나를 " + "뿜는다."))
  }

  function GameNight(): Scene
  {
    Scene("scene_3b", "게임의 밤", "https://" + "picsum.photos/" + "seed/" + "vn-games/" + "1280/720", ["char_hero", "char_dragon"],
      [DialogueLine(None, None, "당신은 스파키와 " + "함께 '성과 " + "투석기' 게임을 " + "하며 오후를 " + "보냅니다."),
       DialogueLine(Some("char_hero"), Some("char_hero_happy"), "올해 들어 가장 " + "재미있는 " + "시간이었어.")],
      [],
      Some("기사와 작은 용이 " + "보물에 둘러싸여 " + "함께 즐겁게 " + "보드게임을 하고 " + "있다."))
  }

  function SafeReturn(): Scene
  {
    Scene("scene_4", "안전한 귀갓길", "https://" + "picsum.photos/" + "seed/" + "vn-home/" + "1280/720", [],
      [DialogueLine(None, None, "당신은 무사히 " + "집으로 " + "돌아옵니다. " + "세상은 아직 " + "모험하지 않은 " + "채로 남아있지만, " + "적어도 용의 " + "먹이는 되지 " + "않았습니다.")],
      [],
      Some("해질녘 집으로 " + "이어지는 아늑하고 " + "평화로운 마을 길."))
  }

  /** `DEMO_VN`: two characters, a branching start scene and three endings. */
  function DemoNovel(): Novel
  {
    Novel("어느 용의 퀘스트",
      "용감한 기사가 " + "되어 전설의 용이 " + "살고 있는 동굴을 " + "탐험하세요. " + "전투와 우정, " + "당신의 선택에 " + "따라 운명이 " + "결정됩니다.",
      "https://" + "picsum.photos/" + "seed/" + "vn-cave/" + "1280/720",
      [Hero(), Dragon()],
      [CaveEntrance(), InsideCave(), Duel(), GameNight(), SafeReturn()],
      "scene_1")
  }

  /** `EMPTY_VN`: one empty ending scene and no characters. */
  function EmptyNovel(): Novel
  {
    Novel("새 프로젝트", "여기에 게임에 " + "대한 간단한 " + "소개를 입력하세요.", "", [],
      [Scene("scene_1", "시작 장면", "", [], [DialogueLine(None, None, "이야기를 " + "시작하세요...")], [], Some(""))],
      "scene_1")
  }
}
