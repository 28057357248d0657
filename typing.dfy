/** initTypingAnimation in script.js: the closure variables of typeText become
    the fields of a TypingAnimation, and typeText a method proved against
    TypingSpec.Step. It exists only when the .typing-subtitle element does. */
module Typing {
  import opened TypingSpec

  class TypingAnimation {
    var textIndex: int
    var charIndex: int
    var isDeleting: bool
    var typingSpeed: int
    var textContent: string     // textContent of .typing-subtitle

    function State(): TypingSpec.State
      reads this
    {
      TypingSpec.State(textIndex, charIndex, isDeleting, typingSpeed, textContent)
    }

    /** initTypingAnimation: the closure starts at the first word and typeText runs once at once. */
    constructor (textContent: string)
      ensures State() == Step(Start(textContent))
      ensures Shown(State())
    {
      textIndex, charIndex, isDeleting, typingSpeed := 0, 0, false, TypeDelay;
      this.textContent := textContent;
      new;
      var _ := TypeText();
    }

    /** typeText; it answers the delay it schedules itself again after. */
    method TypeText() returns (delay: int)
      requires InRange(State())
      modifies this
      ensures State() == Step(old(State()))
      ensures Shown(State())
      ensures delay == typingSpeed
    {
      StepShowsPrefix(State());
      var currentText := Texts[textIndex];
      if isDeleting {
        textContent := Substring(currentText, charIndex - 1);
        charIndex := charIndex - 1;
        typingSpeed := DeleteDelay;
      } else {
        textContent := Substring(currentText, charIndex + 1);
        charIndex := charIndex + 1;
        typingSpeed := TypeDelay;
      }
      if !isDeleting && charIndex == |currentText| {
        isDeleting := true;
        typingSpeed := EndOfWordPause;
      } else if isDeleting && charIndex == 0 {
        isDeleting := false;
        textIndex := (textIndex + 1) % |Texts|;
        typingSpeed := NextWordPause;
      }
      delay := typingSpeed;
    }
  }
}
