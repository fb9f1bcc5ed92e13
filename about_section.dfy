/**
 * The about section (`AboutSection`): the heading that splits the about
 * title into a plain lead-in and a highlighted remainder, and the fixed
 * texts shown when a field of the site configuration is empty.
 */
module AboutSection {
  import opened Wrappers
  import opened Types
  import opened Strings

  const DefaultName := "Phyo Min Thein"
  const DefaultLocation := "Thailand \U{1F1F9}\U{1F1ED}"
  const DefaultEmail := "phyominthein.dev@gmail.com"
  const DefaultAboutMe := "I'm a passionate full-stack developer who loves building elegant, user-centered digital experiences. "
    + "With expertise spanning web and mobile development, I craft solutions that combine technical excellence with beautiful design."

  /** The heading: plain text followed by the highlighted part. */
  datatype Heading = Heading(plain: string, highlighted: string)

  /**
   * The heading for an about title. An empty title greets with the name;
   * any other title is cut into two parts that read back as the title: after
   * the first "I'm ", else after the first "am ", else before the last word,
   * else not at all.
   */
  function AboutHeading(title: Option<string>, name: string): (h: Heading)
    ensures title.GetOr("") == "" ==> h.plain == "Hi, I'm " && h.highlighted != ""
    ensures title.GetOr("") == "" && name != "" ==> h.highlighted == name
    ensures title.GetOr("") == "" && name == "" ==> h.highlighted == DefaultName
    ensures title.GetOr("") != "" ==> h.plain + h.highlighted == title.value
  {
    var t := title.GetOr("");
    if t == "" then Heading("Hi, I'm ", Or(name, DefaultName))
    else
      var im := IndexOf(t, "I'm ");
      if im != -1 then Heading(t[..im + 4], t[im + 4..])
      else
        var am := IndexOf(t, "am ");
        if am != -1 then Heading(t[..am + 3], t[am + 3..])
        else
          var words := Split(t, ' ');
          if |words| > 1 then
            SplitJoinedAtLast(t, words);
            Heading(Join(words[..|words| - 1], " ") + " ", words[|words| - 1])
          else Heading("", t)
  }

  lemma SplitJoinedAtLast(t: string, words: seq<string>)
    requires words == Split(t, ' ') && |words| > 1
    ensures Join(words[..|words| - 1], " ") + " " + words[|words| - 1] == t
  {
    JoinSplit(t, ' ');
    assert [' '] == " ";
    JoinSnoc(words[..|words| - 1], words[|words| - 1], " ");
    assert words[..|words| - 1] + [words[|words| - 1]] == words;
  }

  lemma {:induction false} JoinSnoc(init: seq<string>, last: string, d: string)
    requires |init| > 0
    ensures Join(init + [last], d) == Join(init, d) + d + last
  {
    if |init| > 1 {
      assert (init + [last])[1..] == init[1..] + [last];
      JoinSnoc(init[1..], last, d);
    } else {
      assert init + [last] == [init[0], last];
    }
  }

  /** With "I'm " in the title, the cut falls right after its first occurrence, whatever else the title holds. */
  lemma ImRuleFirst(t: string, name: string, i: int)
    requires OccursAt(t, "I'm ", i)
    ensures var h := AboutHeading(Some(t), name);
      && OccursAt(t, "I'm ", |h.plain| - 4)
      && forall j :: 0 <= j < |h.plain| - 4 ==> !OccursAt(t, "I'm ", j)
  {
  }

  /** Without "I'm ", a title with "am " is cut right after the first "am ". */
  lemma AmRule(t: string, name: string, i: int)
    requires forall j :: !OccursAt(t, "I'm ", j)
    requires OccursAt(t, "am ", i)
    ensures var h := AboutHeading(Some(t), name);
      && OccursAt(t, "am ", |h.plain| - 3)
      && forall j :: 0 <= j < |h.plain| - 3 ==> !OccursAt(t, "am ", j)
  {
  }

  /** Without either phrase, a title with a space highlights the word after its last space. */
  lemma LastWordRule(a: string, w: string, name: string)
    requires ' ' !in w
    requires forall j :: !OccursAt(a + " " + w, "I'm ", j) && !OccursAt(a + " " + w, "am ", j)
    ensures AboutHeading(Some(a + " " + w), name) == Heading(a + " ", w)
  {
    var t := a + " " + w;
    assert [' '] == " ";
    SplitAtLastSeparator(a, w, ' ');
    var words := Split(t, ' ');
    assert words[..|words| - 1] == Split(a, ' ');
    JoinSplit(a, ' ');
  }

  /** A one-word title, with neither phrase, is highlighted whole. */
  lemma SingleWordRule(t: string, name: string)
    requires t != "" && ' ' !in t
    requires forall j :: !OccursAt(t, "I'm ", j) && !OccursAt(t, "am ", j)
    ensures AboutHeading(Some(t), name) == Heading("", t)
  {
    SplitWithoutSeparator(t, ' ');
  }

  /** The about card's texts. */
  datatype AboutTexts = AboutTexts(aboutMe: string, name: string, location: string, email: string)

  /** Each text is the configured one, or its fixed default when that is empty. */
  function Texts(config: SiteConfig): (r: AboutTexts)
    ensures r.aboutMe != "" && r.name != "" && r.location != "" && r.email != ""
    ensures config.aboutMe.GetOr("") != "" ==> r.aboutMe == config.aboutMe.value
    ensures config.name != "" ==> r.name == config.name
    ensures config.location != "" ==> r.location == config.location
    ensures config.email != "" ==> r.email == config.email
    ensures config.aboutMe.GetOr("") == "" ==> r.aboutMe == DefaultAboutMe
    ensures config.name == "" ==> r.name == DefaultName
    ensures config.location == "" ==> r.location == DefaultLocation
    ensures config.email == "" ==> r.email == DefaultEmail
  {
    AboutTexts(Or(config.aboutMe.GetOr(""), DefaultAboutMe), Or(config.name, DefaultName),
               Or(config.location, DefaultLocation), Or(config.email, DefaultEmail))
  }

  /**
   * The texts are a fixed point: a configuration already holding the texts
   * shown for `config` shows the same texts, so filling the empty fields with
   * their defaults changes nothing on screen.
   */
  lemma TextsOfShownTexts(config: SiteConfig)
    ensures var r := Texts(config);
      Texts(config.(aboutMe := Some(r.aboutMe), name := r.name, location := r.location, email := r.email)) == r
  {
    var r := Texts(config);
    assert r.aboutMe != "" && r.name != "" && r.location != "" && r.email != "";
  }
}
