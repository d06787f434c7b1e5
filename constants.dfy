/** Configuration constants of the input panel. */
module Constants {

  /** The largest number of characters the analyze button accepts. */
  const MaxChars: nat := 5000

  /** The Arabic sample offered by the "Sample (AR)" button. */
  const SampleTextArabic: string :=
    "الذكاء"
    + " الاصطناعي هو فرع من فروع علوم الحاسوب يهدف إلى تطوير أنظمة قادرة على أداء مهام تتطلب عادة ذكاءً بشريًا. تشمل هذه المهام التعلم، والاستنتاج، وحل المشكلات، والإدراك، وفهم اللغة."

  /** The English sample offered by the "Sample (EN)" button. */
  const SampleTextEnglish: string :=
    "Artificial"
    + " intelligence (AI) is intelligence demonstrated by machines, as opposed to the natural intelligence displayed by animals including humans. AI research has been defined as the field of study of intelligent agents, which refers to any system that perceives its environment and takes actions that maximize its chance of achieving its goals."
}
