/** The public hero section: localized title/subtitle/CTA and the video-or-image background. */
module HeroSection {
  import opened Wrappers
  import Locale

  /** The section's props: three localized texts and an optional background video. */
  datatype HeroData = HeroData(
    title: Locale.Localized<string>,
    subtitle: Locale.Localized<string>,
    ctaText: Locale.Localized<string>,
    backgroundVideo: Option<string>)

  datatype Background = Video(src: string) | FallbackImage(src: string)

  datatype HeroView = HeroView(background: Background, title: string, subtitle: string, ctaText: string)

  const FallbackBackground: string := "/images/hero-bg.jpg"

  /** `data.backgroundVideo ? <video src=…> : <img src="/images/hero-bg.jpg">` */
  function BackgroundOf(video: Option<string>): (b: Background)
    ensures b.Video? <==> video.Some? && video.value != ""
    ensures b.Video? ==> b.src == video.value
    ensures b.FallbackImage? ==> b.src == FallbackBackground
  {
    if video.Some? && video.value != "" then Video(video.value) else FallbackImage(FallbackBackground)
  }

  /**
   * The rendered section for the route parameter `lang` (None when absent): every text
   * goes through the same `getLocalizedContent` switch.
   */
  function Render(lang: Option<string>, data: HeroData): (v: HeroView)
    ensures v.background == BackgroundOf(data.backgroundVideo)
    ensures v.title == Locale.Pick(lang, data.title)
    ensures v.subtitle == Locale.Pick(lang, data.subtitle)
    ensures v.ctaText == Locale.Pick(lang, data.ctaText)
  {
    HeroView(BackgroundOf(data.backgroundVideo),
             Locale.Pick(lang, data.title), Locale.Pick(lang, data.subtitle), Locale.Pick(lang, data.ctaText))
  }

  /**
   * The three texts are projected with one language: for "ru" and "uz" the matching columns,
   * for any other value (including "en" and an absent parameter) the default columns.
   */
  lemma RenderOneLanguage(lang: Option<string>, data: HeroData)
    ensures lang == Some("ru") ==> var v := Render(lang, data);
      v.title == data.title.ru && v.subtitle == data.subtitle.ru && v.ctaText == data.ctaText.ru
    ensures lang == Some("uz") ==> var v := Render(lang, data);
      v.title == data.title.uz && v.subtitle == data.subtitle.uz && v.ctaText == data.ctaText.uz
    ensures lang != Some("ru") && lang != Some("uz") ==> var v := Render(lang, data);
      v.title == data.title.en && v.subtitle == data.subtitle.en && v.ctaText == data.ctaText.en
  {
  }
}
