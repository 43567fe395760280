/**
 * The public landing page: which sections show, the texts and colours read
 * from the event settings with their fallbacks, the footer links, and the
 * schedule timeline.
 */
module Landing {
  import opened Wrappers
  import opened Strings
  import opened Domain

  // -------------------------------------------------------------- sections

  datatype Section = Hero | Solidarity | Schedule | Footer

  function ShowFlag(s: EventSettings, sec: Section): Option<bool>
  {
    match sec
    case Hero => s.show_hero
    case Solidarity => s.show_solidarity
    case Schedule => s.show_schedule
    case Footer => s.show_footer
  }

  /** `settings?.show_… !== false`; `settings` is None before the fetch answers or when it fails. */
  predicate SectionShown(settings: Option<EventSettings>, sec: Section)
  {
    !(settings.Some? && ShowFlag(settings.value, sec) == Some(false))
  }

  /**
   * A section is hidden exactly when settings are loaded and its flag is
   * the value false: a missing flag, like missing settings, shows it.
   */
  lemma HiddenOnlyWhenFalse(settings: Option<EventSettings>, sec: Section)
    ensures settings.None? ==> SectionShown(settings, sec)
    ensures settings.Some? && ShowFlag(settings.value, sec).None? ==> SectionShown(settings, sec)
    ensures settings.Some? && ShowFlag(settings.value, sec) == Some(true) ==> SectionShown(settings, sec)
    ensures !SectionShown(settings, sec) <==> settings.Some? && ShowFlag(settings.value, sec) == Some(false)
  {
  }

  // -------------------------------------------------------------- texts

  /** The settings fields the page renders through `settings?.field || default`. */
  datatype TextField =
    | PrimaryColor | SecondaryColor | AccentColor
    | HeroCta | SolidarityTitle | ScheduleTitle | AboutText
    | FooterAddress | FooterInstagram | FooterPhone | FooterCopyright
    | Edition | YearLabel

  function RawText(s: EventSettings, f: TextField): Option<string>
  {
    match f
    case PrimaryColor => Some(s.primary_color)
    case SecondaryColor => Some(s.secondary_color)
    case AccentColor => Some(s.accent_color)
    case HeroCta => s.hero_cta_text
    case SolidarityTitle => s.solidarity_title
    case ScheduleTitle => s.schedule_title
    case AboutText => s.about_text
    case FooterAddress => s.footer_address
    case FooterInstagram => s.footer_instagram
    case FooterPhone => s.footer_phone
    case FooterCopyright => s.footer_copyright
    case Edition => Some(s.edition)
    case YearLabel => Some(s.year_label)
  }

  const PrimaryColorFallback := "#0041B6"
  const SecondaryColorFallback := "#FFD100"
  const AccentColorFallback := "#E63946"
  const HeroCtaFallback := "Garantir Inscrição"
  const SolidarityTitleFallback := "Alegria & Solidariedade"
  const ScheduleTitleFallback := "Programação Oficial"
  const AboutTextFallback := "Aprendizado que forma líderes, transforma histórias e faz o futuro desfilar com conhecimento, inovação e a energia vibrante do Carnaval da UNINASSAU."
  const FooterAddressFallback := "R. Fernando Lopes, 752 - Graças\nRecife - PE, 52011-220"
  const FooterInstagramFallback := "@uninassau"
  const FooterPhoneFallback := "(81) 3413-4611"
  const FooterCopyrightFallback := "© 2026 UNINASSAU | Compromisso com a Educação e Cultura"
  const EditionFallback := "Bloco dos Mauricinhos"
  const YearLabelFallback := "Ano IV"

  function Fallback(f: TextField): (r: string)
    ensures |r| > 0
  {
    match f
    case PrimaryColor => PrimaryColorFallback
    case SecondaryColor => SecondaryColorFallback
    case AccentColor => AccentColorFallback
    case HeroCta => HeroCtaFallback
    case SolidarityTitle => SolidarityTitleFallback
    case ScheduleTitle => ScheduleTitleFallback
    case AboutText => AboutTextFallback
    case FooterAddress => FooterAddressFallback
    case FooterInstagram => FooterInstagramFallback
    case FooterPhone => FooterPhoneFallback
    case FooterCopyright => FooterCopyrightFallback
    case Edition => EditionFallback
    case YearLabel => YearLabelFallback
  }

  /**
   * The text the page shows for a field: the stored value when settings are
   * loaded and it is non-empty, the fixed fallback otherwise. It is never
   * empty.
   */
  function Text(settings: Option<EventSettings>, f: TextField): (r: string)
    ensures r != ""
    ensures settings.Some? && Truthy(RawText(settings.value, f)) ==> r == RawText(settings.value, f).value
    ensures !(settings.Some? && Truthy(RawText(settings.value, f))) ==> r == Fallback(f)
  {
    if settings.Some? then OrElse(RawText(settings.value, f), Fallback(f)) else Fallback(f)
  }

  // -------------------------------------------------------------- links

  /** `c` occurs first at index `i` of `s`. */
  predicate FirstAt(s: string, c: char, i: int)
  {
    0 <= i < |s| && s[i] == c && c !in s[..i]
  }

  /** The index of the first `c` in `s`. */
  function FirstIndex(s: string, c: char): (i: nat)
    requires c in s
    ensures FirstAt(s, c, i)
  {
    if s[0] == c then 0
    else
      var j := FirstIndex(s[1..], c);
      assert s[..j + 1] == [s[0]] + s[1..][..j];
      j + 1
  }

  /** Dropping index `j` of the tail of `s` is dropping index `j + 1` of `s`, head kept. */
  lemma SkipAfterHead(s: string, j: nat)
    requires j + 1 < |s|
    ensures [s[0]] + (s[1..][..j] + s[1..][j + 1..]) == s[..j + 1] + s[j + 2..]
  {
    assert s[..j + 1] == [s[0]] + s[1..][..j];
    assert s[j + 2..] == s[1..][j + 1..];
  }

  /** `s.replace(c, '')` with a string pattern: only the first occurrence goes. */
  function RemoveFirst(s: string, c: char): (r: string)
    ensures c !in s ==> r == s
    ensures c in s ==> r == s[..FirstIndex(s, c)] + s[FirstIndex(s, c) + 1..]
  {
    if s == [] then []
    else if s[0] == c then s[1..]
    else
      var r' := RemoveFirst(s[1..], c);
      if c in s[1..] then
        SkipAfterHead(s, FirstIndex(s[1..], c));
        [s[0]] + r'
      else
        assert s == [s[0]] + s[1..];
        [s[0]] + r'
  }

  /** Removing the first '@' removes one '@' and keeps every other character. */
  lemma {:induction false} RemoveFirstCounts(s: string, c: char)
    ensures c in s ==> multiset(RemoveFirst(s, c)) == multiset(s) - multiset{c}
    ensures c in s ==> |RemoveFirst(s, c)| == |s| - 1
  {
    if s != [] {
      assert s == [s[0]] + s[1..];
      assert multiset(s) == multiset{s[0]} + multiset(s[1..]);
      if s[0] != c {
        RemoveFirstCounts(s[1..], c);
        assert RemoveFirst(s, c) == [s[0]] + RemoveFirst(s[1..], c);
      }
    }
  }

  const InstagramBase := "https://www.instagram.com/"

  /** The Instagram link of the footer: the handle without its first '@', between the site address and a slash. */
  function InstagramHref(settings: Option<EventSettings>): string
  {
    InstagramBase + RemoveFirst(Text(settings, FooterInstagram), '@') + "/"
  }

  /**
   * The link points at the profile named by the handle: an "@name" handle
   * gives the profile "name", and a handle without '@' is kept as typed.
   */
  lemma InstagramHrefProfile(settings: Option<EventSettings>, name: string)
    ensures Text(settings, FooterInstagram) == "@" + name ==> InstagramHref(settings) == InstagramBase + name + "/"
    ensures '@' !in Text(settings, FooterInstagram) ==> InstagramHref(settings) == InstagramBase + Text(settings, FooterInstagram) + "/"
  {
    var h := Text(settings, FooterInstagram);
    if h == "@" + name {
      assert h[0] == '@';
      assert h[1..] == name;
    }
  }

  /** Without settings the link is the university's profile. */
  lemma DefaultInstagramHref()
    ensures InstagramHref(None) == "https://www.instagram.com/uninassau/"
  {
    DefaultHandleProfile();
    DefaultLinkText();
  }

  lemma DefaultLinkText()
    ensures InstagramBase + "uninassau" + "/" == "https://www.instagram.com/uninassau/"
  {
  }

  lemma DefaultHandleProfile()
    ensures RemoveFirst(Text(None, FooterInstagram), '@') == "uninassau"
  {
    var h := FooterInstagramFallback;
    assert h[0] == '@' && h[1..] == "uninassau";
  }

  /** The `tel:` link of the footer: the digits of the phone text. */
  function PhoneHref(settings: Option<EventSettings>): (r: string)
  {
    "tel:" + Digits(Text(settings, FooterPhone))
  }

  /**
   * The link dials exactly the digits shown in the footer, in order; a
   * phone stored as plain digits is dialled as stored.
   */
  lemma PhoneHrefDials(settings: Option<EventSettings>)
    ensures IsPrefix("tel:", PhoneHref(settings))
    ensures AllDigits(PhoneHref(settings)[4..])
    ensures PhoneHref(settings)[4..] == Digits(Text(settings, FooterPhone))
    ensures AllDigits(Text(settings, FooterPhone)) ==> PhoneHref(settings) == "tel:" + Text(settings, FooterPhone)
  {
    var t := Text(settings, FooterPhone);
    assert PhoneHref(settings)[4..] == Digits(t);
    if AllDigits(t) {
      DigitsOfAllDigits(t);
    }
  }

  // -------------------------------------------------------------- the timeline

  /** `item.type === 'banda' ? 'Banda / Show' : item.type === 'dj' ? 'DJ Set' : 'Atração'`. */
  function TypeLabel(kind: string): string
  {
    if kind == "banda" then "Banda / Show" else if kind == "dj" then "DJ Set" else "Atração"
  }

  datatype Icon = ClockIcon | MusicIcon

  function TypeIcon(kind: string): Icon
  {
    if kind == "dj" then ClockIcon else MusicIcon
  }

  /**
   * The clock icon and the "DJ Set" label go together, and only for the
   * 'dj' type; 'banda' alone reads "Banda / Show"; every other type reads
   * "Atração" with the music icon.
   */
  lemma LabelMatchesIcon(kind: string)
    ensures TypeIcon(kind) == ClockIcon <==> TypeLabel(kind) == "DJ Set"
    ensures TypeLabel(kind) == "DJ Set" <==> kind == "dj"
    ensures TypeLabel(kind) == "Banda / Show" <==> kind == "banda"
    ensures kind != "dj" && kind != "banda" ==> TypeLabel(kind) == "Atração" && TypeIcon(kind) == MusicIcon
  {
    assert "Banda / Show" != "DJ Set" && "Atração" != "DJ Set" && "Atração" != "Banda / Show";
  }

  /** What one attraction card shows. */
  datatype Card = Card(name: string, time: Option<string>, typeLabel: string, icon: Icon, featured: bool, connector: bool)

  datatype Timeline = Placeholder | Cards(cards: seq<Card>)

  /** The card for the attraction at position `idx` of `n`. */
  function CardFor(a: Attraction, idx: nat, n: nat): Card
  {
    Card(a.name, if a.time != "" then Some(a.time) else None, TypeLabel(a.kind), TypeIcon(a.kind),
         a.is_featured == Some(true), idx + 1 < n)
  }

  /**
   * The schedule section: the placeholder for an empty list, otherwise one
   * card per attraction, in list order, with a connector below every card
   * but the last, and the time shown exactly when it is non-empty.
   */
  function ScheduleTimeline(attrs: seq<Attraction>): (r: Timeline)
    ensures r.Placeholder? <==> |attrs| == 0
    ensures r.Cards? ==> |r.cards| == |attrs|
    ensures r.Cards? ==> forall i :: 0 <= i < |attrs| ==>
      && r.cards[i].name == attrs[i].name
      && r.cards[i].time == (if attrs[i].time != "" then Some(attrs[i].time) else None)
      && (r.cards[i].connector <==> i < |attrs| - 1)
  {
    if |attrs| == 0 then Placeholder
    else Cards(seq(|attrs|, i requires 0 <= i < |attrs| => CardFor(attrs[i], i, |attrs|)))
  }

  function Connectors(cards: seq<Card>): nat
  {
    if cards == [] then 0 else Connectors(cards[..|cards| - 1]) + (if cards[|cards| - 1].connector then 1 else 0)
  }

  lemma {:induction false} AllConnected(cards: seq<Card>)
    requires forall i :: 0 <= i < |cards| ==> cards[i].connector
    ensures Connectors(cards) == |cards|
  {
    if cards != [] {
      AllConnected(cards[..|cards| - 1]);
    }
  }

  /** A timeline of `n` cards draws `n - 1` connectors. */
  lemma ConnectorCount(attrs: seq<Attraction>)
    requires |attrs| > 0
    ensures Connectors(ScheduleTimeline(attrs).cards) == |attrs| - 1
  {
    var cs := ScheduleTimeline(attrs).cards;
    var n := |cs|;
    AllConnected(cs[..n - 1]);
    assert !cs[n - 1].connector;
  }
}
