/** The Telegram bot configuration row and its dictionary view (burglary_alert/models/telegram_config.py). */
module TelegramSettings {
  import opened Wrappers

  /** Number of trailing token characters left visible. */
  const VisibleSuffix: nat := 6

  datatype TelegramConfig = TelegramConfig(id: int, chatId: Option<string>, botToken: Option<string>, active: bool)

  /** What `to_dict` returns. */
  datatype ConfigView = ConfigView(id: int, chatId: Option<string>, botToken: Option<string>, active: bool)

  function Stars(n: nat): (r: string)
    ensures |r| == n && forall i :: 0 <= i < n ==> r[i] == '*'
  {
    seq(n, _ => '*')
  }

  /** Masks all but the last six characters; a token of six characters or fewer becomes six stars. */
  function MaskToken(token: string): (r: string)
    requires token != []
    ensures |token| > VisibleSuffix ==> |r| == |token|
    ensures |token| > VisibleSuffix ==> r[|r| - VisibleSuffix..] == token[|token| - VisibleSuffix..]
    ensures |token| > VisibleSuffix ==> forall i :: 0 <= i < |r| - VisibleSuffix ==> r[i] == '*'
    ensures |token| <= VisibleSuffix ==> r == "******"
  {
    if |token| > VisibleSuffix then Stars(|token| - VisibleSuffix) + token[|token| - VisibleSuffix..]
    else "******"
  }

  /** Two tokens of the same length that end alike are masked alike: the mask shows nothing else. */
  lemma MaskHidesPrefix(t1: string, t2: string)
    requires t1 != [] && |t1| == |t2|
    requires |t1| > VisibleSuffix ==> t1[|t1| - VisibleSuffix..] == t2[|t2| - VisibleSuffix..]
    ensures MaskToken(t1) == MaskToken(t2)
  {
    if |t1| > VisibleSuffix {
      var r1, r2 := MaskToken(t1), MaskToken(t2);
      forall i | 0 <= i < |r1| ensures r1[i] == r2[i] {
        if i >= |r1| - VisibleSuffix {
          assert r1[i] == r1[|r1| - VisibleSuffix..][i - (|r1| - VisibleSuffix)];
          assert r2[i] == r2[|r2| - VisibleSuffix..][i - (|r2| - VisibleSuffix)];
        }
      }
    }
  }

  /** `TelegramConfig.to_dict(mask_token)` */
  function ToDict(config: TelegramConfig, maskToken: bool): (v: ConfigView)
    ensures v.id == config.id && v.chatId == config.chatId && v.active == config.active
    ensures !maskToken || config.botToken == None || config.botToken == Some("") ==> v.botToken == config.botToken
    ensures maskToken && config.botToken.Some? && config.botToken.value != [] ==>
              v.botToken == Some(MaskToken(config.botToken.value))
  {
    var token :=
      if maskToken && config.botToken.Some? && config.botToken.value != [] then Some(MaskToken(config.botToken.value))
      else config.botToken;
    ConfigView(config.id, config.chatId, token, config.active)
  }
}
