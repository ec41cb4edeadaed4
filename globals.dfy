/** Globals.cs: the settings the commands consult and the command line sets. */
module Globals {
  /** `G_BotAuthor` before `-ba` sets it: 0 means no author is configured. */
  const NoAuthor: nat := 0

  /** `G_BotMusicMaxVolume`: the highest volume, in percent, others than the author may set. */
  const BotMusicMaxVolume: int := 100

  /** The static properties `HandleArgs` assigns. */
  class GlobalSettings {
    var botToken: string
    var botAuthor: nat
    var debugMode: bool

    /** The initialisers: no token, no author, debug mode off. */
    constructor()
      ensures botToken == "" && botAuthor == NoAuthor && !debugMode
    {
      botToken := "";
      botAuthor := NoAuthor;
      debugMode := false;
    }
  }
}
