/**
 * The settings tab (`ModaiSettingsTab`): each control writes one member of
 * the plugin's settings and saves them. The role controls go through the
 * role-table operations of module Settings.
 */
module SettingsTab {
  import Settings
  import opened JsString
  import opened Main

  class ModaiSettingsTab {
    const plugin: Modai

    constructor (plugin: Modai)
      ensures this.plugin == plugin
    {
      this.plugin := plugin;
    }

    /** The key field: the OpenAI key becomes the typed value and is saved. */
    method SetOpenAIKey(value: string)
      modifies plugin`settings, plugin`data, plugin`statusText
      ensures plugin.settings == old(plugin.settings).(openAIKey := value)
      ensures plugin.data == Saved(plugin.settings)
      ensures plugin.statusText == plugin.settings.model
    {
      plugin.settings := plugin.settings.(openAIKey := value);
      plugin.SaveSettings();
    }

    /** The temperature slider. */
    method SetTemperature(value: real)
      modifies plugin`settings, plugin`data, plugin`statusText
      ensures plugin.settings == old(plugin.settings).(temperature := value)
      ensures plugin.data == Saved(plugin.settings)
      ensures plugin.statusText == plugin.settings.model
    {
      plugin.settings := plugin.settings.(temperature := value);
      plugin.SaveSettings();
    }

    /** The OpenAI model dropdown; it sets `openAImodel`, which routing never reads. */
    method SetOpenAIModel(value: string)
      modifies plugin`settings, plugin`data, plugin`statusText
      ensures plugin.settings == old(plugin.settings).(openAImodel := value)
      ensures plugin.settings.model == old(plugin.settings.model)
      ensures plugin.data == Saved(plugin.settings)
      ensures plugin.statusText == plugin.settings.model
    {
      plugin.settings := plugin.settings.(openAImodel := value);
      plugin.SaveSettings();
    }

    /**
     * "Add role": the trimmed name is added with empty instructions and the
     * settings saved, unless it is blank or already a role, in which case
     * nothing happens, not even a save.
     */
    method AddRole(input: string)
      modifies plugin`settings, plugin`data, plugin`statusText
      ensures plugin.settings == old(plugin.settings).(roles := Settings.AddRole(old(plugin.settings.roles), input))
      ensures plugin.settings.roles == old(plugin.settings.roles) ==>
        plugin.data == old(plugin.data) && plugin.statusText == old(plugin.statusText)
      ensures plugin.settings.roles != old(plugin.settings.roles) ==>
        plugin.data == Saved(plugin.settings) && plugin.statusText == plugin.settings.model
    {
      var roles := plugin.settings.roles;
      var name := Trim(input);
      if name != "" && name !in roles {
        plugin.settings := plugin.settings.(roles := roles[name := ""]);
        plugin.SaveSettings();
      }
    }

    /** A role's text area: that role's instructions become the typed text and are saved. */
    method EditRole(role: string, text: string)
      modifies plugin`settings, plugin`data, plugin`statusText
      ensures plugin.settings == old(plugin.settings).(roles := Settings.EditRole(old(plugin.settings.roles), role, text))
      ensures plugin.data == Saved(plugin.settings)
      ensures plugin.statusText == plugin.settings.model
    {
      plugin.settings := plugin.settings.(roles := plugin.settings.roles[role := text]);
      plugin.SaveSettings();
    }

    /** A role's delete button: the role is removed and the settings saved. */
    method DeleteRole(role: string)
      modifies plugin`settings, plugin`data, plugin`statusText
      ensures plugin.settings == old(plugin.settings).(roles := Settings.DeleteRole(old(plugin.settings.roles), role))
      ensures plugin.data == Saved(plugin.settings)
      ensures plugin.statusText == plugin.settings.model
    {
      plugin.settings := plugin.settings.(roles := plugin.settings.roles - {role});
      plugin.SaveSettings();
    }
  }
}
