/** The instruction tags both data-preparation scripts wrap a case
    description in. */
module InstructionFormat {

  /** Opens every training text of the data-preparation scripts. */
  const INSTRUCTION_OPEN: string := "<s>[INST] "
}
