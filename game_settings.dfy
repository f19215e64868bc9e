/** The process-wide step-by-step flag, held in one object that the actors share. */
module GameSettings {

  class Settings {
    /** True while lockstep (step-by-step) movement is in force. */
    var isStepByStep: bool

    constructor ()
      ensures !isStepByStep
    {
      isStepByStep := false;
    }
  }
}
