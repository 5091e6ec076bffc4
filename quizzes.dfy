/** Quiz entities shared by the lesson viewer and the lesson manager. */
module Quizzes {

  /** One multiple-choice question: its text, its kind (`"mcq"`), the option
      texts, the index of the right option, an explanation and its points. */
  datatype Question = Question(
    text: string,
    kind: string,
    options: seq<string>,
    correctAnswer: int,
    explanation: string,
    points: int)

  /** A stored quiz as the backend returns it. */
  datatype Quiz = Quiz(id: string, title: string, description: string, questions: seq<Question>)

  /** The latest attempt of the user at a lesson's quiz. */
  datatype Attempt = Attempt(id: string, passed: bool)
}
