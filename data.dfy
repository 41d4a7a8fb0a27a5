/** The entities the panel reads. They are owned by the host application:
    the panel never creates or changes a run configuration, it only reads one. */
module RunConfigData {

  /** Stand-in for Kotlin's nullable types (`String?`, `LanguageData?`, ...). */
  datatype Option<+T> = None | Some(value: T)

  /** LanguageData. The panel's `when` over it has no `else` branch and is total,
      so these eight constants are the whole enumeration. */
  datatype Language = Kotlin | Java | Python | JavaScript | TypeScript | Go | Rust | Unknown

  /** RunConfigurationTypeData, likewise closed: main function, script, test, custom. */
  datatype ConfigType = MainFunction | Script | Test | Custom

  /** RunConfigurationData: one detected runnable entry point. */
  datatype RunConfiguration = RunConfiguration(
    id: string,
    name: string,
    filePath: string,
    workingDirectory: string,
    language: Language,
    configType: ConfigType
  )
}
