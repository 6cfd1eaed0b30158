/** How the two bot variants' conversation engines relate: they run the same
    transition table and differ in the keyword groups of `menu_principal`,
    where bot.js also accepts "cuanto", "hora" and "donde". The '5' reply's text
    also differs (bot.js adds a demonstration note); both are the reply kind
    `Advisor`. */
module Variants {
  import opened JsText
  import opened Conversation
  import BaileysBot
  import WebClientBot

  /** Keywords only matter for the reply in `menu_principal`; every other step,
      and every step change and data write, is the same for any keyword lists. */
  lemma KeywordsOnlyMatterInMainMenu(kw1: Keywords, kw2: Keywords, s: Session, token: string, raw: string)
    ensures Next(kw1, s, token, raw).session == Next(kw2, s, token, raw).session
    ensures Next(kw1, s, token, raw).lead == Next(kw2, s, token, raw).lead
    ensures s.step != MenuPrincipal ==> Next(kw1, s, token, raw) == Next(kw2, s, token, raw)
  {
  }

  /** Unless the token mentions a word only bot.js lists, both variants give the
      same informational reply. "horario" contains "hora", so a token without
      "hora" has neither. */
  lemma KeywordRepliesAgree(token: string)
    requires !Contains(token, "cuanto") && !Contains(token, "hora") && !Contains(token, "donde")
    ensures KeywordReply(BaileysBot.BaileysKeywords, token) == KeywordReply(WebClientBot.WebKeywords, token)
  {
    MentionsTwo(token, "precio", "costo");
    MentionsThree(token, "precio", "costo", "cuanto");
    MentionsOne(token, "horario");
    MentionsTwo(token, "horario", "hora");
    MentionsTwo(token, "ubicacion", "direccion");
    MentionsThree(token, "ubicacion", "direccion", "donde");
    if Contains(token, "horario") {
      HorarioContainsHora(token);
    }
  }

  /** bot.js's lists are wider: whatever bot-baileys.js recognises, bot.js
      recognises too, though "cuanto" can make it answer with prices first. */
  lemma WebRecognisesMore(token: string)
    requires KeywordReply(BaileysBot.BaileysKeywords, token) != NotUnderstood
    ensures KeywordReply(WebClientBot.WebKeywords, token) != NotUnderstood
    ensures KeywordReply(BaileysBot.BaileysKeywords, token) == PriceInfo ==>
      KeywordReply(WebClientBot.WebKeywords, token) == PriceInfo
  {
    MentionsTwo(token, "precio", "costo");
    MentionsThree(token, "precio", "costo", "cuanto");
    MentionsOne(token, "horario");
    MentionsTwo(token, "horario", "hora");
    MentionsTwo(token, "ubicacion", "direccion");
    MentionsThree(token, "ubicacion", "direccion", "donde");
  }
}
