/**
 * `exportToHtml`: the single-page web game. The exporter computes four things that the
 * page's template interpolates: the story snapshot embedded in the page's script (the
 * `JSON.stringify` text with every `<` written as `\u003c`), the title, the optional
 * description paragraph and the title screen's background style. `JSON.stringify` is a
 * parameter here; the static markup, styles and script text are not modelled.
 */
module HtmlExport {
  import opened Wrappers
  import opened Model
  import Playback

  /** The six characters `\u003c`, JSON's escape for `<`. */
  const LtEscape: string := ['\\', 'u', '0', '0', '3', 'c']

  /** `replace(/</g, '\\u003c')`. */
  function EscapeLt(s: string): (r: string)
    ensures '<' !in r
    ensures |r| >= |s|
  {
    if s == [] then [] else (if s[0] == '<' then LtEscape else [s[0]]) + EscapeLt(s[1..])
  }

  /**
   * How a JSON reader sees the characters of a text: an escape is a backslash and the
   * character after it, `\u003c` stands for `<`, and every other escape is kept as it is.
   */
  function ReadJson(t: string): string
    decreases |t|
  {
    if t == [] then []
    else if t[0] == '\\' && |t| >= 2 then
      if |t| >= 6 && t[..6] == LtEscape then ['<'] + ReadJson(t[6..]) else t[..2] + ReadJson(t[2..])
    else [t[0]] + ReadJson(t[1..])
  }

  /**
   * The shape of `JSON.stringify` output that the escaping relies on: every backslash opens
   * a two-character escape, no escape is `\<`, and no escape is `\u003c` (the serializer
   * only writes `\u` escapes for control characters and lone surrogates).
   */
  predicate Stringified(s: string)
    decreases |s|
  {
    if s == [] then true
    else if s[0] == '\\' then
      |s| >= 2 && s[1] != '<' && !(|s| >= 6 && s[..6] == LtEscape) && Stringified(s[2..])
    else Stringified(s[1..])
  }

  /** A prefix without backslashes that the escaped text starts with was already in the text. */
  lemma {:induction false} EscapedPrefix(s: string, w: string)
    requires '\\' !in w
    requires |EscapeLt(s)| >= |w| && EscapeLt(s)[..|w|] == w
    ensures |s| >= |w| && s[..|w|] == w
  {
    if w != [] {
      var t := EscapeLt(s);
      assert t[0] == w[0];
      assert s != [];
      assert t == [s[0]] + EscapeLt(s[1..]);
      assert EscapeLt(s[1..])[..|w| - 1] == t[1..|w|] == w[1..];
      EscapedPrefix(s[1..], w[1..]);
      assert s[..|w|] == [s[0]] + s[1..][..|w| - 1];
    }
  }

  /**
   * The escaping changes no JSON value: read as JSON, the embedded snapshot is the
   * serializer's text, character for character.
   */
  lemma {:induction false} EscapeLtRoundTrip(s: string)
    requires Stringified(s)
    ensures ReadJson(EscapeLt(s)) == s
  {
    if s != [] {
      var t := EscapeLt(s);
      if s[0] == '<' {
        assert t == LtEscape + EscapeLt(s[1..]);
        assert t[..6] == LtEscape && t[6..] == EscapeLt(s[1..]);
        EscapeLtRoundTrip(s[1..]);
      } else if s[0] == '\\' {
        var rest := EscapeLt(s[2..]);
        assert EscapeLt(s[1..]) == [s[1]] + rest;
        assert t == ['\\', s[1]] + rest;
        if |t| >= 6 && t[..6] == LtEscape {
          assert rest[..4] == t[2..6] == "003c";
          EscapedPrefix(s[2..], "003c");
          assert false;
        }
        assert t[..2] == s[..2] && t[2..] == rest;
        EscapeLtRoundTrip(s[2..]);
        assert s == s[..2] + s[2..];
      } else {
        assert t == [s[0]] + EscapeLt(s[1..]);
        EscapeLtRoundTrip(s[1..]);
        assert s == [s[0]] + s[1..];
      }
    }
  }

  /** Without a `<` the text is embedded unchanged. */
  lemma {:induction false} EscapeLtKeepsPlainText(s: string)
    requires '<' !in s
    ensures EscapeLt(s) == s
  {
    if s != [] {
      EscapeLtKeepsPlainText(s[1..]);
      assert s == [s[0]] + s[1..];
    }
  }

  /** `vn.coverUrl || (startScene ? startScene.backgroundUrl : '')`. */
  function TitleBackgroundUrl(vn: Novel): string
  {
    if Truthy(Some(vn.coverUrl)) then vn.coverUrl
    else
      var startScene := FindScene(vn.scenes, vn.startSceneId);
      if startScene.Some? then startScene.value.backgroundUrl else ""
  }

  /** The exported title screen shows the same background as the in-editor player's. */
  lemma TitleBackgroundMatchesPlayer(vn: Novel)
    ensures TitleBackgroundUrl(vn) == Playback.TitleBackground(vn)
  {
  }

  /** The title screen's style: the background image when there is a URL, plain black otherwise. */
  datatype TitleStyle = BackgroundImage(url: string) | BlackBackground

  function TitleBackgroundStyle(url: string): (style: TitleStyle)
    ensures style.BackgroundImage? <==> url != ""
    ensures style.BackgroundImage? ==> style.url == url
  {
    if url != "" then BackgroundImage(url) else BlackBackground
  }

  /** What the page template interpolates. */
  datatype Page = Page(title: string, description: Option<string>, titleStyle: TitleStyle, data: string)

  /**
   * `exportToHtml(vn)`, given `json`, the text `JSON.stringify(vn)` produces. The title and
   * description are interpolated as they are, without HTML escaping.
   */
  function ExportToHtml(vn: Novel, json: string): (page: Page)
    ensures page.title == vn.title
    ensures page.data == EscapeLt(json)
    ensures '<' !in page.data
    ensures page.description.Some? <==> vn.description != ""
    ensures page.description.Some? ==> page.description.value == vn.description
    ensures page.titleStyle == TitleBackgroundStyle(Playback.TitleBackground(vn))
  {
    TitleBackgroundMatchesPlayer(vn);
    Page(vn.title,
         if Truthy(Some(vn.description)) then Some(vn.description) else None,
         TitleBackgroundStyle(TitleBackgroundUrl(vn)),
         EscapeLt(json))
  }

  /**
   * The exported page reads its story back: the embedded data is the serializer's text as
   * JSON, it cannot close the page's `script` element, and the title screen agrees with the
   * in-editor player's.
   */
  lemma ExportedPageFaithful(vn: Novel, json: string)
    requires Stringified(json)
    ensures ReadJson(ExportToHtml(vn, json).data) == json
    ensures '<' !in ExportToHtml(vn, json).data
    ensures var v := Playback.PreviewView(vn, Playback.TitleMode, vn.startSceneId, 0);
      ExportToHtml(vn, json).titleStyle == TitleBackgroundStyle(v.backgroundUrl)
      && ExportToHtml(vn, json).description == v.description
  {
    EscapeLtRoundTrip(json);
  }
}
