/** The one setting of `config.py` the modelled code depends on. */
module Config {

  /** `TABLEAU_FOLDER`, the folder the folder migration reads and reports. */
  const TableauFolder: string := "raju"
}
