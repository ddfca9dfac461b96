/**
 * The fixed instruction texts the controllers send to the model providers. The flash-card and
 * quiz requests wrap the conversation transcript between a head and a tail; the title request
 * wraps the student's first message.
 */
module PromptText {

  /** The tutor persona sent as the first (system) message of every chat prompt. */
  const SystemInstruction: string :=
    "You are an expert AI tutor for \"Room To Grow\" - a personalized learning platform.\n"
    + "    Your goal is to help students learn any subject through:\n"
    + "    - Clear, patient explanations tailored to their level\n"
    + "    - Asking guiding questions to promote critical thinking\n"
    + "    - Breaking down complex topics into digestible pieces\n"
    + "    - Encouraging students and celebrating their progress\n"
    + "    - Adapting your teaching style based on the student's responses\n"
    + "\n"
    + "    Be friendly, supportive, and engaging. Always aim to teach, not just answer.\n"
    + "    \n"
    + "    IMPORTANT: If you detect that the student is switching to a significantly different topic (e.g., from math to science, history to programming),\n"
    + "    acknowledge it naturally in your response and gently suggest they start a new chat to keep their flash cards and quizzes focused.\n"
    + "    For example: \"I see you want to learn about [new topic] now! I'd recommend starting a new chat for this to keep your study materials organized and focused on one topic at a time.\"\n"
    + "    Only mention this for major topic shifts, not minor variations within the same subject."

  /** Text of the title request before the student's message. */
  const TitlePromptHead: string :=
    "Based on this student's question, generate a short, descriptive title (max 50 characters) for this learning session. Return ONLY the title, no quotes or extra text.\n\nQuestion: "

  /** Text of the title request after the student's message. */
  const TitlePromptTail: string :=
    "\n\nRespond with just the title:"

  /** Text of the flash-card request before the transcript (OpenRouter controller). */
  const FlashCardPromptHead: string :=
    "Based on the following conversation, generate flash cards to help the student review key concepts.\n"
    + "Conversation:\n"

  /** Text of the flash-card request after the transcript (OpenRouter controller). */
  const FlashCardPromptTail: string :=
    "\n"
    + "\n"
    + "Generate 5-10 flash cards and a descriptive title (max 40 characters) in JSON format.\n"
    + "Return ONLY a JSON object with this structure:\n"
    + "{\n"
    + "  \"title\": \"descriptive title for these flashcards\",\n"
    + "  \"flashcards\": [\n"
    + "    { \"question\": \"...\", \"answer\": \"...\" },\n"
    + "    ...\n"
    + "  ]\n"
    + "}"

  /** Text of the quiz request before the transcript (OpenRouter controller). */
  const QuizPromptHead: string :=
    "Based on the following conversation, generate a quiz to test the student's understanding.\n"
    + "Conversation:\n"

  /** Text of the quiz request after the transcript (OpenRouter controller). */
  const QuizPromptTail: string :=
    "\n"
    + "\n"
    + "Generate a descriptive title (max 40 characters) and 5 multiple-choice questions in JSON format. Each question should have:\n"
    + "- \"question\": the question text\n"
    + "- \"options\": array of 4 possible answers\n"
    + "- \"correctAnswer\": the index (0-3) of the correct option\n"
    + "- \"explanation\": brief explanation of why the answer is correct\n"
    + "\n"
    + "Return ONLY a JSON object with this structure:\n"
    + "{\n"
    + "  \"title\": \"descriptive title for this quiz\",\n"
    + "  \"quiz\": [\n"
    + "    {\n"
    + "      \"question\": \"...\",\n"
    + "      \"options\": [\"A\", \"B\", \"C\", \"D\"],\n"
    + "      \"correctAnswer\": 0,\n"
    + "      \"explanation\": \"...\"\n"
    + "    },\n"
    + "    ...\n"
    + "  ]\n"
    + "}"

  /** Text of the flash-card request before the transcript (Gemini controller). */
  const GeminiFlashCardPromptHead: string :=
    "Based on the following conversation, generate flash cards to help the student review key concepts.\n"
    + "                                Conversation:\n"
    + "                                "

  /** Text of the flash-card request after the transcript (Gemini controller). */
  const GeminiFlashCardPromptTail: string :=
    "\n"
    + "\n"
    + "                                Generate 5-10 flash cards in JSON format. Each flash card should have a \"question\" and \"answer\" field.\n"
    + "                                Return ONLY a JSON object with this structure:\n"
    + "                                {\n"
    + "                                \"flashcards\": [\n"
    + "                                    { \"question\": \"...\", \"answer\": \"...\" },\n"
    + "                                    ...\n"
    + "                                ]\n"
    + "                                }"

  /** Text of the quiz request before the transcript (Gemini controller). */
  const GeminiQuizPromptHead: string :=
    "Based on the following conversation, generate a quiz to test the student's understanding.\n"
    + "                            Conversation:\n"
    + "                            "

  /** Text of the quiz request after the transcript (Gemini controller). */
  const GeminiQuizPromptTail: string :=
    "\n"
    + "\n"
    + "                            Generate 5 multiple-choice questions in JSON format. Each question should have:\n"
    + "                            - \"question\": the question text\n"
    + "                            - \"options\": array of 4 possible answers\n"
    + "                            - \"correctAnswer\": the index (0-3) of the correct option\n"
    + "                            - \"explanation\": brief explanation of why the answer is correct\n"
    + "\n"
    + "                            Return ONLY a JSON object with this structure:\n"
    + "                            {\n"
    + "                            \"quiz\": [\n"
    + "                                {\n"
    + "                                \"question\": \"...\",\n"
    + "                                \"options\": [\"A\", \"B\", \"C\", \"D\"],\n"
    + "                                \"correctAnswer\": 0,\n"
    + "                                \"explanation\": \"...\"\n"
    + "                                },\n"
    + "                                ...\n"
    + "                            ]\n"
    + "                            }"
}
