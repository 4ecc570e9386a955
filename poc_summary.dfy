/**
 * The proof-of-concept summary plugin (SummaryPluginPoc/SummaryPlugin.cs):
 * it holds a reference to a settings store it shares with its creator and
 * builds its prompt from that store's current settings.
 */
module PocSummary {
  import opened Outcomes
  import opened PromptText
  import opened PocSettings

  class SummaryPlugin {
    const settings: SettingsPlugin

    constructor (settings: SettingsPlugin)
      ensures this.settings == settings
    {
      this.settings := settings;
    }

    /** The same prompt as the shared store's own `GetSummaryPrompt`, read without changing the store. */
    method GetSummaryPrompt() returns (r: string)
      ensures r == PocSummaryPrompt(settings.topic, settings.promptLength)
      ensures ParsePocPrompt(r) == Some((settings.topic, settings.promptLength))
    {
      var t := settings.GetTopic();
      var n := settings.GetPromptLength();
      var again := settings.GetTopic();
      r := LeadSentence(PocTopicName(t), n) + Framing(PocTopicName(again));
      PocSummaryPromptRoundTrip(settings.topic, settings.promptLength);
    }
  }

  /**
   * Settings changed through the shared store are seen by the plugin's next
   * prompt, and the plugin's prompt equals the store's own.
   */
  method SharedSettingsAreSeen(plugin: SummaryPlugin, topic: PocTopic, length: int)
    returns (fromPlugin: string, fromStore: string)
    modifies plugin.settings
    ensures ParsePocPrompt(fromPlugin) == Some((topic, length))
    ensures fromPlugin == fromStore
  {
    plugin.settings.SetTopic(topic);
    plugin.settings.SetPromptLength(length);
    fromPlugin := plugin.GetSummaryPrompt();
    fromStore := plugin.settings.GetSummaryPrompt();
  }
}
