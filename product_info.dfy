/** /product_info (commands/product_info.js): the card that describes one
    product, computed from its row alone. */
module ProductInfo {
  import opened Text
  import opened Database

  /** commands/product_info.js:41-46: levels 1 and 2 have a description,
      every other level reads 'Disabled'. */
  function PrecheckDescription(level: int): (r: string)
    ensures r == "Disabled" <==> level != 1 && level != 2
  {
    if level == 1 then "Level 1 - Basic Validation"
    else if level == 2 then "Level 2 - Full Validation + Ban Check"
    else "Disabled"
  }

  /** commands/product_info.js:47-54: cookie mode decides before the precheck
      type does. */
  function AccountType(cookieMode: bool, precheckType: string): (r: string)
    ensures cookieMode ==> r == "Cookie Files"
    ensures r == "Standard Format" <==> !cookieMode && precheckType != "token" && precheckType != "email:pass"
  {
    if cookieMode then "Cookie Files"
    else if precheckType == "token" then "Access Tokens"
    else if precheckType == "email:pass" then "Email:Password"
    else "Standard Format"
  }

  /** How a cooldown in seconds is shown. */
  datatype Duration =
    | NoCooldown
    | HoursMinutes(hours: nat, minutes: nat)
    | MinutesSeconds(minutes: nat, seconds: nat)
    | Seconds(seconds: nat)

  /** commands/product_info.js:55-66: no cooldown for c <= 0; whole hours and
      minutes (the seconds dropped) from one hour on; minutes and seconds from
      one minute on; seconds below that. */
  function CooldownOf(c: int): (r: Duration)
    ensures r == NoCooldown <==> c <= 0
    ensures r.HoursMinutes? ==>
              r.hours >= 1 && r.minutes < 60
              && 3600 * r.hours + 60 * r.minutes <= c < 3600 * r.hours + 60 * r.minutes + 60
    ensures r.MinutesSeconds? ==> 1 <= r.minutes < 60 && r.seconds < 60 && c == 60 * r.minutes + r.seconds
    ensures r.Seconds? ==> 1 <= r.seconds < 60 && c == r.seconds
  {
    if c <= 0 then NoCooldown
    else
      var hours, minutes, seconds := c / 3600, (c % 3600) / 60, c % 60;
      if hours > 0 then HoursMinutes(hours, minutes)
      else if minutes > 0 then MinutesSeconds(minutes, seconds)
      else Seconds(seconds)
  }

  /** The cooldown text of the card. */
  function CooldownText(c: int): string {
    match CooldownOf(c)
    case NoCooldown => "None"
    case HoursMinutes(h, m) => NatToString(h) + "h " + NatToString(m) + "m"
    case MinutesSeconds(m, s) => NatToString(m) + "m " + NatToString(s) + "s"
    case Seconds(s) => NatToString(s) + "s"
  }

  /** The text shows the numbers it was made from: it ends in 'm' exactly when
      the cooldown is an hour or more, and reads 'None' exactly when there is
      no cooldown. */
  lemma CooldownTextShape(c: int)
    ensures CooldownText(c) == "None" <==> c <= 0
    ensures c >= 3600 ==> CooldownText(c)[|CooldownText(c)| - 1] == 'm'
    ensures 0 < c < 3600 ==> CooldownText(c)[|CooldownText(c)| - 1] == 's'
  {
    if c > 0 {
      var t := CooldownText(c);
      assert t[|t| - 1] != 'e';
    }
  }

  /** commands/product_info.js:68-76: 0 is out of stock, anything below 10
      low, the rest in stock. */
  function StockStatus(stock: int): (r: (string, string))
    ensures r.1 == "Out of Stock" <==> stock == 0
    ensures r.1 == "Low Stock" <==> stock != 0 && stock < 10
    ensures r.1 == "In Stock" <==> stock >= 10
  {
    if stock == 0 then ("❌", "Out of Stock")
    else if stock < 10 then ("⚠️", "Low Stock")
    else ("✅", "In Stock")
  }

  /** The optional fields at the foot of the card. */
  datatype Field = QualityAssurance(details: string) | LowStockWarning(stock: int) | OutOfStockNotice

  /** The quality assurance bullet list; levels other than 1 and 2 get none. */
  function PrecheckDetails(level: int): string {
    if level == 1 then
      "• Validates account credentials\n• Checks Microsoft authentication\n"
      + "• Verifies Minecraft ownership\n• **No ban checking** (faster)"
    else if level == 2 then
      "• Validates account credentials\n• Checks Microsoft authentication\n"
      + "• Verifies Minecraft ownership\n• **Checks Hypixel ban status**\n• Only delivers unbanned accounts"
    else ""
  }

  /** commands/product_info.js:115-148 */
  function ExtraFields(level: int, stock: int): seq<Field> {
    (if level > 0 then [QualityAssurance(PrecheckDetails(level))] else [])
    + (if stock > 0 && stock < 10 then [LowStockWarning(stock)] else [])
    + (if stock == 0 then [OutOfStockNotice] else [])
  }

  /** The warning fields follow the stock: the low-stock warning exactly for
      1..9, the out-of-stock notice exactly for 0, never both; the quality
      field exactly when a precheck level is set. They agree with the status
      line, except that a negative stock reads 'Low Stock' without a warning. */
  lemma ExtraFieldsFollowStock(level: int, stock: int)
    ensures var fs := ExtraFields(level, stock);
      (LowStockWarning(stock) in fs <==> 0 < stock < 10)
      && (OutOfStockNotice in fs <==> stock == 0)
      && (OutOfStockNotice in fs <==> StockStatus(stock).1 == "Out of Stock")
      && (LowStockWarning(stock) in fs ==> StockStatus(stock).1 == "Low Stock")
      && (stock < 0 ==> StockStatus(stock).1 == "Low Stock" && LowStockWarning(stock) !in fs)
      && ((exists d :: QualityAssurance(d) in fs) <==> level > 0)
      && |fs| <= 2
  {
    var fs := ExtraFields(level, stock);
    if level > 0 {
      assert fs[0] == QualityAssurance(PrecheckDetails(level));
    }
  }

  /** The card of a product. */
  datatype Card = Card(price: int, stock: int, stockEmoji: string, stockStatus: string, cooldown: string,
                       accountType: string, precheck: string, format: string, extra: seq<Field>)

  datatype InfoReply = Blacklisted | NotFound | Shown(card: Card)

  /** commands/product_info.js:31-149 */
  function Info(products: map<string, Product>, blacklisted: bool, name: string): (r: InfoReply)
    ensures r == NotFound <==> !blacklisted && name !in products
    ensures r.Shown? ==>
              name in products && r.card.stock == products[name].stock
              && r.card.price == products[name].price
              && (r.card.stockStatus == "Out of Stock" <==> products[name].stock == 0)
  {
    if blacklisted then Blacklisted
    else if name !in products then NotFound
    else
      var p := products[name];
      var (emoji, status) := StockStatus(p.stock);
      Shown(Card(p.price, p.stock, emoji, status, CooldownText(p.cooldown),
                 AccountType(p.cookieMode, p.precheckType), PrecheckDescription(p.precheckLevel),
                 if p.cookieMode then "Cookie Files (ZIP)" else "Text File",
                 ExtraFields(p.precheckLevel, p.stock)))
  }
}
